/**
 * The public lead-capture endpoint (`/api/public/leads`): API-key and origin
 * checks against the key table, the disabled-workspace check, body
 * validation, the lead insert, and the CORS headers on every answer.
 */
module PublicLeads {
  import opened Base
  import opened Text
  import ApiKeys
  import LeadValidation
  import LeadStatus
  import WorkspaceActions

  const BEARER_PREFIX: string := "bearer "
  const MISSING_KEY: string := "Missing API key. Use X-API-Key header or Authorization: Bearer <key>."
  const NO_ORIGIN: string := "Could not determine request origin."
  const INVALID_KEY: string := "Invalid API key."
  const ORIGIN_REFUSED: string :=
    "You are not allowed to use this API from this website. Add this origin to the API key's allowed websites in Settings."
  const DEACTIVATED: string := "Your account is deactivated, please contact administrator."
  const INVALID_JSON: string := "Invalid JSON body."
  const NAME_REQUIRED: string := "name is required."
  const STATUS_REQUIRED: string := "status is required."
  const ALLOWED_CHANNELS: seq<string> := ["email", "phone", "whatsapp", "website"]
  const ACTIVITY_DESCRIPTION: string := "Lead created via API"

  /** The CORS response headers the endpoint sets. */
  datatype Header = AllowMethods | AllowHeaders | MaxAge | AllowOrigin

  /** A string's JavaScript truthiness. */
  predicate Truthy(s: Option<string>) {
    s.Some? && s.value != ""
  }

  /** `getApiKeyFromRequest`: a non-blank `X-API-Key` wins, then a `Bearer` authorization (any case). */
  function GetApiKey(apiKeyHeader: Option<string>, authorization: Option<string>): (r: Option<string>)
    ensures apiKeyHeader.Some? && Trim(apiKeyHeader.value) != "" ==> r == Some(Trim(apiKeyHeader.value))
    ensures !(apiKeyHeader.Some? && Trim(apiKeyHeader.value) != "") ==>
      (r.Some? <==> authorization.Some? && StartsWith(ToLower(authorization.value), "bearer "))
    ensures !(apiKeyHeader.Some? && Trim(apiKeyHeader.value) != "") && r.Some? ==>
      r.value == Trim(authorization.value[7..])
  {
    if apiKeyHeader.Some? && Trim(apiKeyHeader.value) != "" then Some(Trim(apiKeyHeader.value))
    else if authorization.Some? && StartsWith(ToLower(authorization.value), BEARER_PREFIX) then
      Some(Trim(authorization.value[|BEARER_PREFIX|..]))
    else None
  }

  /** A bare `Bearer ` header yields the empty key, which the endpoint then refuses as missing. */
  lemma BareBearerIsEmptyKey()
    ensures GetApiKey(None, Some("Bearer ")) == Some("")
  {
    var a := "Bearer ";
    assert ToLower(a)[..7] == "bearer ";
    assert a[7..] == [];
  }

  /**
   * `getOriginFromRequest`. `parseOrigin(s)` is `new URL(s).origin`, `None`
   * when the constructor throws.
   */
  function GetOrigin(origin: Option<string>, referer: Option<string>, url: string,
                     parseOrigin: string -> Option<string>): (r: string)
    ensures origin.Some? && Trim(origin.value) != "" ==> r == Trim(origin.value)
    ensures !(origin.Some? && Trim(origin.value) != "") && referer.Some? && Trim(referer.value) != ""
            && parseOrigin(Trim(referer.value)).Some? ==>
      r == parseOrigin(Trim(referer.value)).value
    ensures !(origin.Some? && Trim(origin.value) != "")
            && !(referer.Some? && Trim(referer.value) != "" && parseOrigin(Trim(referer.value)).Some?) ==>
      r == parseOrigin(url).GetOr("")
  {
    if origin.Some? && Trim(origin.value) != "" then Trim(origin.value)
    else if referer.Some? && Trim(referer.value) != "" && parseOrigin(Trim(referer.value)).Some? then
      parseOrigin(Trim(referer.value)).value
    else parseOrigin(url).GetOr("")
  }

  /** `.eq("key_hash", h).single()`: the row whose hash is `h`, when exactly one row has it. */
  function SingleByHash(rows: map<string, ApiKeys.ApiKeyRow>, h: string): (r: Option<ApiKeys.ApiKeyRow>)
    ensures r.Some? ==> exists id :: id in rows && rows[id] == r.value && r.value.keyHash == h
    ensures r.Some? <==> |set id | id in rows && rows[id].keyHash == h| == 1
  {
    var ids := set id | id in rows && rows[id].keyHash == h;
    if |ids| == 1 then
      SingletonUnique(ids);
      var id :| id in ids;
      Some(rows[id])
    else None
  }

  lemma SingletonUnique(ids: set<string>)
    requires |ids| == 1
    ensures forall a, b :: a in ids && b in ids ==> a == b
  {
    forall a, b | a in ids && b in ids ensures a == b {
      if a != b {
        assert {a, b} <= ids;
        SubsetCard({a, b}, ids);
      }
    }
  }

  /** `allowedOrigins.some(o => normalizeOrigin(o) === normalizeOrigin(origin))`. */
  predicate OriginAllowed(allowed: seq<string>, origin: string) {
    exists i :: 0 <= i < |allowed| && ApiKeys.NormalizeOrigin(allowed[i]) == ApiKeys.NormalizeOrigin(origin)
  }

  /** The JSON body, each field as sent (`None` when absent or `null`). */
  datatype LeadBody = LeadBody(
    name: Option<string>, email: Option<string>, phone: Option<string>, status: Option<string>,
    company: Option<string>, channel: Option<string>, owner: Option<string>, whatsapp: Option<string>,
    subject: Option<string>, message: Option<string>, dealValue: Option<int>)

  /** The row inserted into `leads`. */
  datatype LeadRow = LeadRow(
    workspaceId: int, name: string, email: string, phone: string,
    company: Option<string>, channel: Option<string>, status: string, owner: Option<string>,
    whatsapp: Option<string>, subject: Option<string>, message: Option<string>,
    dealValue: Option<int>, disabled: bool)

  /** `(x ?? "").trim()`. */
  function TrimField(x: Option<string>): string {
    Trim(x.GetOr(""))
  }

  /** `(x ?? "").trim() || null`. */
  function OptionalField(x: Option<string>): (r: Option<string>)
    ensures r.None? <==> TrimField(x) == ""
    ensures r.Some? ==> r.value == TrimField(x)
  {
    if TrimField(x) == "" then None else Some(TrimField(x))
  }

  /** `xs.join(", ")`. */
  function JoinComma(xs: seq<string>): string {
    if xs == [] then [] else if |xs| == 1 then xs[0] else xs[0] + ", " + JoinComma(xs[1..])
  }

  /** The outcome of the checks: a refusal with its status, error and allowed values, or the row to insert. */
  datatype Verdict =
    | Refused(status: int, error: string, options: seq<string>)
    | Accepted(row: LeadRow)

  /** The first body check that fails, with its error and allowed values, in order: name, email, phone, WhatsApp, channel, status. */
  function BodyError(b: LeadBody): (e: Option<(string, seq<string>)>)
    ensures e.None? <==>
      TrimField(b.name) != ""
      && LeadValidation.ValidateEmail(TrimField(b.email)).None?
      && LeadValidation.ValidatePhone(TrimField(b.phone)).None?
      && LeadValidation.ValidateWhatsApp(b.whatsapp.GetOr("")).None?
      && ChannelOk(TrimField(b.channel)) && LeadStatus.IsValidLeadStatus(TrimField(b.status))
  {
    var emailErr := LeadValidation.ValidateEmail(TrimField(b.email));
    var phoneErr := LeadValidation.ValidatePhone(TrimField(b.phone));
    var whatsappErr := LeadValidation.ValidateWhatsApp(b.whatsapp.GetOr(""));
    if TrimField(b.name) == "" then Some((NAME_REQUIRED, []))
    else if emailErr.Some? then Some((emailErr.value, []))
    else if phoneErr.Some? then Some((phoneErr.value, []))
    else if whatsappErr.Some? then Some((whatsappErr.value, []))
    else ChoiceError(TrimField(b.channel), TrimField(b.status))
  }

  /** `channelVal && !ALLOWED_CHANNELS.includes(channelVal)` fails. */
  predicate ChannelOk(channel: string) {
    channel == "" || channel in ALLOWED_CHANNELS
  }

  /** The channel check, then the two status checks. */
  function ChoiceError(channel: string, status: string): (e: Option<(string, seq<string>)>)
    ensures e.None? <==> ChannelOk(channel) && LeadStatus.IsValidLeadStatus(status)
  {
    if !ChannelOk(channel) then Some((ChannelError(), ALLOWED_CHANNELS))
    else if status == "" then
      LeadStatus.EmptyNotStatus();
      Some((STATUS_REQUIRED, []))
    else if !LeadStatus.IsValidLeadStatus(status) then Some((StatusError(), LeadStatus.LeadStatusValues()))
    else None
  }

  function ChannelError(): string {
    "Invalid channel. Allowed values: " + JoinComma(ALLOWED_CHANNELS) + "."
  }

  function StatusError(): string {
    "Invalid status. Allowed values: " + JoinComma(LeadStatus.LeadStatusValues()) + "."
  }

  /**
   * The body checks, in the order they run: each refusal assumes every
   * earlier check passed, and none of the first four carries options.
   */
  lemma BodyCheckOrder(b: LeadBody)
    ensures TrimField(b.name) == "" ==> BodyError(b) == Some((NAME_REQUIRED, []))
    ensures var emailErr := LeadValidation.ValidateEmail(TrimField(b.email));
      TrimField(b.name) != "" && emailErr.Some? ==> BodyError(b) == Some((emailErr.value, []))
    ensures var phoneErr := LeadValidation.ValidatePhone(TrimField(b.phone));
      TrimField(b.name) != "" && LeadValidation.ValidateEmail(TrimField(b.email)).None? && phoneErr.Some? ==>
      BodyError(b) == Some((phoneErr.value, []))
    ensures var whatsappErr := LeadValidation.ValidateWhatsApp(b.whatsapp.GetOr(""));
      (TrimField(b.name) != "" && LeadValidation.ValidateEmail(TrimField(b.email)).None?
       && LeadValidation.ValidatePhone(TrimField(b.phone)).None? && whatsappErr.Some?) ==>
      BodyError(b) == Some((whatsappErr.value, []))
    ensures (TrimField(b.name) != "" && LeadValidation.ValidateEmail(TrimField(b.email)).None?
             && LeadValidation.ValidatePhone(TrimField(b.phone)).None?
             && LeadValidation.ValidateWhatsApp(b.whatsapp.GetOr("")).None?) ==>
      BodyError(b) == ChoiceError(TrimField(b.channel), TrimField(b.status))
  {
  }

  /**
   * The channel check, then "status is required.", then the invalid-status
   * check; the two invalid-value refusals list the allowed values.
   */
  lemma ChoiceCheckOrder(channel: string, status: string)
    ensures !ChannelOk(channel) ==>
      ChoiceError(channel, status) == Some((ChannelError(), ["email", "phone", "whatsapp", "website"]))
    ensures ChannelOk(channel) && status == "" ==> ChoiceError(channel, status) == Some((STATUS_REQUIRED, []))
    ensures ChannelOk(channel) && status != "" && !LeadStatus.IsValidLeadStatus(status) ==>
      ChoiceError(channel, status) ==
        Some((StatusError(), ["new", "contacted", "qualified", "proposal", "won", "unqualified", "lost"]))
  {
  }

  /** The row built from a body that passed its checks: trimmed fields, empty optional ones as `null`. */
  function BuildRow(b: LeadBody, workspaceId: int): (row: LeadRow)
    ensures row.workspaceId == workspaceId && row.name == TrimField(b.name) && row.email == TrimField(b.email)
      && row.phone == TrimField(b.phone) && row.status == TrimField(b.status)
      && row.channel == OptionalField(b.channel) && row.company == OptionalField(b.company)
      && row.owner == OptionalField(b.owner) && row.whatsapp == OptionalField(b.whatsapp)
      && row.subject == OptionalField(b.subject) && row.message == OptionalField(b.message)
      && row.dealValue == b.dealValue && !row.disabled
  {
    LeadRow(workspaceId, TrimField(b.name), TrimField(b.email), TrimField(b.phone), OptionalField(b.company),
            OptionalField(b.channel), TrimField(b.status), OptionalField(b.owner), OptionalField(b.whatsapp),
            OptionalField(b.subject), OptionalField(b.message), b.dealValue, false)
  }

  /** The body checks: a 400 with the first failing check's error, or the row to insert. */
  function CheckBody(b: LeadBody, workspaceId: int): (v: Verdict)
    ensures v.Refused? <==> BodyError(b).Some?
    ensures v.Refused? ==> v == Refused(400, BodyError(b).value.0, BodyError(b).value.1)
    ensures v.Accepted? ==> v.row == BuildRow(b, workspaceId)
  {
    var e := BodyError(b);
    if e.Some? then Refused(400, e.value.0, e.value.1) else Accepted(BuildRow(b, workspaceId))
  }

  /** A request as the handler reads it; `body` is `None` when `request.json()` throws. */
  datatype Request = Request(
    apiKeyHeader: Option<string>, authorization: Option<string>, origin: Option<string>,
    referer: Option<string>, url: string, body: Option<LeadBody>)

  /** `workspace?.disabled`: a failed lookup or a missing row reads as enabled. */
  predicate WorkspaceDisabled(workspaces: map<int, WorkspaceActions.WorkspaceRow>, id: int, lookupFailed: bool) {
    !lookupFailed && id in workspaces && workspaces[id].disabled
  }

  /** The key row that the presented key's hash selects, if a key is present and exactly one row has that hash. */
  function KeyRow(req: Request, hash: string -> string, keys: map<string, ApiKeys.ApiKeyRow>): Option<ApiKeys.ApiKeyRow> {
    var key := GetApiKey(req.apiKeyHeader, req.authorization);
    if key.Some? then SingleByHash(keys, hash(key.value)) else None
  }

  /**
   * The checks of `POST`, in order, up to the insert. `hash` is SHA-256 in
   * hex, `keys` the key table, `workspaces` the workspace table.
   */
  function Check(req: Request, parseOrigin: string -> Option<string>, hash: string -> string,
                 keys: map<string, ApiKeys.ApiKeyRow>, workspaces: map<int, WorkspaceActions.WorkspaceRow>,
                 lookupFailed: bool): (v: Verdict)
    ensures !Truthy(GetApiKey(req.apiKeyHeader, req.authorization)) ==> v == Refused(401, MISSING_KEY, [])
    ensures Truthy(GetApiKey(req.apiKeyHeader, req.authorization))
            && GetOrigin(req.origin, req.referer, req.url, parseOrigin) == "" ==>
      v == Refused(400, NO_ORIGIN, [])
  {
    var key := GetApiKey(req.apiKeyHeader, req.authorization);
    if !Truthy(key) then Refused(401, MISSING_KEY, [])
    else
      var origin := GetOrigin(req.origin, req.referer, req.url, parseOrigin);
      if origin == "" then Refused(400, NO_ORIGIN, [])
      else
        var row := KeyRow(req, hash, keys);
        if row.None? then Refused(401, INVALID_KEY, [])
        else if !OriginAllowed(row.value.allowedOrigins, origin) then Refused(403, ORIGIN_REFUSED, [])
        else if WorkspaceDisabled(workspaces, row.value.workspaceId, lookupFailed) then Refused(403, DEACTIVATED, [])
        else if req.body.None? then Refused(400, INVALID_JSON, [])
        else CheckBody(req.body.value, row.value.workspaceId)
  }

  /** An HTTP answer: status, JSON `error`, `options` and `id` members, and headers. */
  datatype Response = Response(
    status: int, error: Option<string>, options: seq<string>, id: Option<string>, headers: map<Header, string>)

  /** `addCors`: the raw request `Origin`, untrimmed and unchecked, whenever it is non-empty. */
  function AddCors(requestOrigin: Option<string>): (h: map<Header, string>)
    ensures Truthy(requestOrigin) ==> h == map[AllowOrigin := requestOrigin.value]
    ensures !Truthy(requestOrigin) ==> h == map[]
  {
    if Truthy(requestOrigin) then map[AllowOrigin := requestOrigin.value] else map[]
  }

  /** `corsResponse(origin)`, the preflight headers. */
  function CorsHeaders(origin: Option<string>): (h: map<Header, string>)
    ensures AllowMethods in h && h[AllowMethods] == "POST, OPTIONS"
    ensures AllowHeaders in h && h[AllowHeaders] == "Content-Type, Authorization, X-API-Key"
    ensures MaxAge in h && h[MaxAge] == "86400"
    ensures AllowOrigin in h <==> Truthy(origin)
    ensures Truthy(origin) ==> h[AllowOrigin] == origin.value
  {
    var base := map[
      AllowMethods := "POST, OPTIONS",
      AllowHeaders := "Content-Type, Authorization, X-API-Key",
      MaxAge := "86400"];
    if Truthy(origin) then base[AllowOrigin := origin.value] else base
  }

  /** `OPTIONS(request)`: an empty 204 with the preflight headers for whatever origin asked. */
  function Options(origin: Option<string>): (r: Response)
    ensures r.status == 204 && r.error.None? && r.id.None?
    ensures r.headers == CorsHeaders(origin)
  {
    Response(204, None, [], None, CorsHeaders(origin))
  }

  /** The activity row written after an insert. */
  datatype Activity = Activity(workspaceId: int, leadId: string, origin: string)

  /** `if (inserted?.id)`: the activity recorded for a new lead, tagged with the normalised caller origin. */
  function ActivityFor(row: LeadRow, leadId: string, req: Request, parseOrigin: string -> Option<string>):
    (r: seq<Activity>)
    ensures |r| <= 1 && (r != [] <==> leadId != "")
    ensures forall a :: a in r ==> a.workspaceId == row.workspaceId && a.leadId == leadId
    ensures forall a :: a in r ==>
      a.origin == ApiKeys.NormalizeOrigin(GetOrigin(req.origin, req.referer, req.url, parseOrigin))
  {
    if leadId == "" then []
    else [Activity(row.workspaceId, leadId, ApiKeys.NormalizeOrigin(GetOrigin(req.origin, req.referer, req.url, parseOrigin)))]
  }

  /** The lead tables the endpoint writes. */
  class LeadTables {
    var leads: seq<(string, LeadRow)>
    var activities: seq<Activity>

    constructor ()
      ensures leads == [] && activities == []
    {
      leads := [];
      activities := [];
    }

    /** The insert of the lead and of its activity rows. */
    method Record(row: LeadRow, leadId: string, acts: seq<Activity>)
      modifies this
      ensures leads == old(leads) + [(leadId, row)] && activities == old(activities) + acts
    {
      leads := leads + [(leadId, row)];
      activities := activities + acts;
    }

    /**
     * `POST(request)`. `insert` is what the insert answers: its error
     * message, or the new row's id.
     */
    method Post(req: Request, parseOrigin: string -> Option<string>, hash: string -> string,
                keys: map<string, ApiKeys.ApiKeyRow>, workspaces: map<int, WorkspaceActions.WorkspaceRow>,
                lookupFailed: bool, insert: Result<string>) returns (resp: Response)
      modifies this
      ensures resp.headers == AddCors(req.origin)
      ensures var v := Check(req, parseOrigin, hash, keys, workspaces, lookupFailed);
        v.Refused? ==>
          resp == Response(v.status, Some(v.error), v.options, None, AddCors(req.origin))
          && leads == old(leads) && activities == old(activities)
      ensures var v := Check(req, parseOrigin, hash, keys, workspaces, lookupFailed);
        v.Accepted? && insert.Failure? ==>
          resp == Response(500, Some(insert.error), [], None, AddCors(req.origin))
          && leads == old(leads) && activities == old(activities)
      ensures var v := Check(req, parseOrigin, hash, keys, workspaces, lookupFailed);
        v.Accepted? && insert.Success? ==>
          resp == Response(201, None, [], Some(insert.value), AddCors(req.origin))
          && leads == old(leads) + [(insert.value, v.row)]
          && activities == old(activities) + ActivityFor(v.row, insert.value, req, parseOrigin)
    {
      var v := Check(req, parseOrigin, hash, keys, workspaces, lookupFailed);
      var cors := AddCors(req.origin);
      if v.Refused? {
        return Response(v.status, Some(v.error), v.options, None, cors);
      }
      if insert.Failure? {
        return Response(500, Some(insert.error), [], None, cors);
      }
      Record(v.row, insert.value, ActivityFor(v.row, insert.value, req, parseOrigin));
      return Response(201, None, [], Some(insert.value), cors);
    }
  }

  /** A request is accepted exactly when every check passes, and the row is then built from its body and the key's workspace. */
  lemma CheckAcceptedIff(req: Request, parseOrigin: string -> Option<string>, hash: string -> string,
                         keys: map<string, ApiKeys.ApiKeyRow>, workspaces: map<int, WorkspaceActions.WorkspaceRow>,
                         lookupFailed: bool)
    ensures var origin := GetOrigin(req.origin, req.referer, req.url, parseOrigin);
      var row := KeyRow(req, hash, keys);
      Check(req, parseOrigin, hash, keys, workspaces, lookupFailed).Accepted? <==>
        Truthy(GetApiKey(req.apiKeyHeader, req.authorization)) && origin != "" && row.Some?
        && OriginAllowed(row.value.allowedOrigins, origin)
        && !WorkspaceDisabled(workspaces, row.value.workspaceId, lookupFailed)
        && req.body.Some? && BodyError(req.body.value).None?
    ensures Check(req, parseOrigin, hash, keys, workspaces, lookupFailed).Accepted? ==>
      Check(req, parseOrigin, hash, keys, workspaces, lookupFailed).row ==
        BuildRow(req.body.value, KeyRow(req, hash, keys).value.workspaceId)
  {
    var origin := GetOrigin(req.origin, req.referer, req.url, parseOrigin);
    var row := KeyRow(req, hash, keys);
    if Truthy(GetApiKey(req.apiKeyHeader, req.authorization)) && origin != "" && row.Some?
       && OriginAllowed(row.value.allowedOrigins, origin)
       && !WorkspaceDisabled(workspaces, row.value.workspaceId, lookupFailed) && req.body.Some? {
      assert Check(req, parseOrigin, hash, keys, workspaces, lookupFailed)
        == CheckBody(req.body.value, row.value.workspaceId);
    }
  }

  /** The refusals, in the order the checks run: each assumes every earlier check passed. */
  lemma RefusalOrder(req: Request, parseOrigin: string -> Option<string>, hash: string -> string,
                     keys: map<string, ApiKeys.ApiKeyRow>, workspaces: map<int, WorkspaceActions.WorkspaceRow>,
                     lookupFailed: bool)
    requires Truthy(GetApiKey(req.apiKeyHeader, req.authorization))
    requires GetOrigin(req.origin, req.referer, req.url, parseOrigin) != ""
    ensures var origin := GetOrigin(req.origin, req.referer, req.url, parseOrigin);
      var row := KeyRow(req, hash, keys);
      var v := Check(req, parseOrigin, hash, keys, workspaces, lookupFailed);
      (row.None? ==> v == Refused(401, "Invalid API key.", []))
      && (row.Some? && !OriginAllowed(row.value.allowedOrigins, origin) ==>
          v.Refused? && v.status == 403 && v.error == ORIGIN_REFUSED)
      && (row.Some? && OriginAllowed(row.value.allowedOrigins, origin)
          && WorkspaceDisabled(workspaces, row.value.workspaceId, lookupFailed) ==>
          v == Refused(403, "Your account is deactivated, please contact administrator.", []))
      && (row.Some? && OriginAllowed(row.value.allowedOrigins, origin)
          && !WorkspaceDisabled(workspaces, row.value.workspaceId, lookupFailed) && req.body.None? ==>
          v == Refused(400, "Invalid JSON body.", []))
  {
  }

  /** An inserted lead always belongs to the workspace of the key that authorised it, whatever the body says. */
  lemma LeadGoesToKeyWorkspace(req: Request, parseOrigin: string -> Option<string>, hash: string -> string,
                               keys: map<string, ApiKeys.ApiKeyRow>,
                               workspaces: map<int, WorkspaceActions.WorkspaceRow>, lookupFailed: bool)
    requires Check(req, parseOrigin, hash, keys, workspaces, lookupFailed).Accepted?
    ensures exists id ::
      id in keys
      && keys[id].keyHash == hash(GetApiKey(req.apiKeyHeader, req.authorization).value)
      && keys[id].workspaceId == Check(req, parseOrigin, hash, keys, workspaces, lookupFailed).row.workspaceId
  {
    CheckAcceptedIff(req, parseOrigin, hash, keys, workspaces, lookupFailed);
  }

  /** A disabled workspace is refused only when its lookup succeeds: a failed lookup lets the request on (fail open). */
  lemma DisabledLookupFailsOpen(workspaces: map<int, WorkspaceActions.WorkspaceRow>, id: int)
    requires id in workspaces && workspaces[id].disabled
    ensures WorkspaceDisabled(workspaces, id, false)
    ensures !WorkspaceDisabled(workspaces, id, true)
  {
  }

  /**
   * A key just created in a table where no other row has its hash, presented
   * in `X-API-Key`, is found by the endpoint's lookup.
   */
  lemma CreatedKeyIsFound(rows: map<string, ApiKeys.ApiKeyRow>, newId: string, row: ApiKeys.ApiKeyRow, h: string)
    requires newId !in rows && row.keyHash == h
    requires forall id :: id in rows ==> rows[id].keyHash != h
    ensures SingleByHash(rows[newId := row], h) == Some(row)
  {
    var rows' := rows[newId := row];
    var ids := set id | id in rows' && rows'[id].keyHash == h;
    assert ids == {newId};
  }

  /** A second row with the same hash makes the key invalid: `.single()` wants exactly one. */
  lemma DuplicateHashInvalid(rows: map<string, ApiKeys.ApiKeyRow>, a: string, b: string, h: string)
    requires a in rows && b in rows && a != b && rows[a].keyHash == h && rows[b].keyHash == h
    ensures SingleByHash(rows, h).None?
  {
    var ids := set id | id in rows && rows[id].keyHash == h;
    assert a in ids && b in ids;
    assert {a, b} <= ids;
    assert |{a, b}| == 2;
    SubsetCard({a, b}, ids);
  }

  lemma SubsetCard(a: set<string>, b: set<string>)
    requires a <= b
    ensures |a| <= |b|
  {
    assert b == a + (b - a);
  }

  /**
   * An origin the key was created with is accepted from a caller whose origin
   * normalises to the same text, provided that text is a fixed point of the
   * normalisation (it ends in neither `/` nor whitespace).
   */
  lemma CreatedOriginAllowed(entered: seq<string>, i: int, callerOrigin: string)
    requires 0 <= i < |entered|
    requires ApiKeys.NormalizeOrigin(entered[i]) == ApiKeys.NormalizeOrigin(callerOrigin)
    requires var n := ApiKeys.NormalizeOrigin(callerOrigin); n != [] && n[|n| - 1] != '/' && !IsWhitespace(n[|n| - 1])
    ensures OriginAllowed(ApiKeys.NormalizeOrigins(entered), callerOrigin)
  {
    var n := ApiKeys.NormalizeOrigin(entered[i]);
    assert entered[i] in entered;
    var stored := ApiKeys.NormalizeOrigins(entered);
    assert n in stored;
    var j :| 0 <= j < |stored| && stored[j] == n;
    ApiKeys.NormalizeStable(entered[i]);
  }

  /** Every answer to `POST` carries the caller's raw `Origin` as the allowed origin, refusals included. */
  lemma CorsEchoesRawOrigin(o: string)
    requires o != ""
    ensures AddCors(Some(o)) == map[AllowOrigin := o]
    ensures AllowOrigin in Options(Some(o)).headers && Options(Some(o)).headers[AllowOrigin] == o
  {
  }
}
