/**
 * The frontend's API client: how `request` assembles the URL and the `fetch` options, how it
 * unwraps the `{ success, data, error }` envelope into a value or an `ApiError`, and the
 * endpoint each `api.*` call targets. The `fetch` itself is left abstract: a call is the
 * value `fetch` receives, and a response is its status and what `response.json()` yields.
 */
module ApiClient {
  import opened Wrappers
  import opened Text
  import opened Json
  import opened Http
  import opened Router
  import Schemas

  const DefaultBaseUrl := "http://localhost:3001"
  const ContentType := "Content-Type"
  const GroupIdHeader := "X-Group-Id"
  const JsonMediaType := "application/json"
  const UnknownError := "Unknown error"

  /** `process.env.NEXT_PUBLIC_API_URL || 'http://localhost:3001'`: an unset or empty variable falls back. */
  function BaseUrl(configured: Option<string>): (b: string)
    ensures b != ""
    ensures configured.Some? && configured.value != "" ==> b == configured.value
    ensures configured.None? || configured.value == "" ==> b == DefaultBaseUrl
  {
    if configured.Some? && configured.value != "" then configured.value else DefaultBaseUrl
  }

  /** The request URL: the base followed by the endpoint, with nothing inserted between them. */
  function Url(base: string, endpoint: string): (u: string)
    ensures |u| == |base| + |endpoint| && u[..|base|] == base && u[|base|..] == endpoint
  {
    base + endpoint
  }

  /** With one base, distinct endpoints give distinct URLs. */
  lemma UrlInjective(base: string, e1: string, e2: string)
    requires Url(base, e1) == Url(base, e2)
    ensures e1 == e2
  {
    assert e1 == Url(base, e1)[|base|..];
  }

  // ---------------------------------------------------------------- fetch options

  type Headers = map<string, string>

  /** The `options` a call passes to `request`; the body is the value handed to `JSON.stringify`. */
  datatype RequestInit = RequestInit(httpMethod: Option<string>, headers: Option<Headers>, body: Option<Json>)

  /** The options object `fetch` receives. */
  datatype FetchInit = FetchInit(credentials: string, httpMethod: Option<string>, headers: Headers, body: Option<Json>)

  /** The options as `request` builds them: `...options` comes last, so caller headers replace the merged object. */
  function FetchInitAsWritten(options: RequestInit): (r: FetchInit)
    ensures r.credentials == "include" && r.httpMethod == options.httpMethod && r.body == options.body
    ensures options.headers.None? ==> r.headers == map[ContentType := JsonMediaType]
    ensures options.headers.Some? ==> r.headers == options.headers.value
  {
    var merged := map[ContentType := JsonMediaType] + options.headers.GetOr(map[]);
    FetchInit("include", options.httpMethod, if options.headers.Some? then options.headers.value else merged, options.body)
  }

  /** The options with the headers merged as the `headers` literal intends: the JSON content type, overridden by the caller's. */
  function FetchInitMerged(options: RequestInit): (r: FetchInit)
    ensures r.credentials == "include" && r.httpMethod == options.httpMethod && r.body == options.body
    ensures r.headers.Keys == {ContentType} + options.headers.GetOr(map[]).Keys
    ensures forall k :: k in options.headers.GetOr(map[]) ==> r.headers[k] == options.headers.value[k]
    ensures ContentType !in options.headers.GetOr(map[]) ==> r.headers[ContentType] == JsonMediaType
  {
    FetchInit("include", options.httpMethod, map[ContentType := JsonMediaType] + options.headers.GetOr(map[]), options.body)
  }

  /** The two assemblies agree on every call that passes no headers of its own. */
  lemma AssembliesAgreeWithoutHeaders(options: RequestInit)
    requires options.headers.None?
    ensures FetchInitAsWritten(options) == FetchInitMerged(options)
  {
  }

  /** What `fetch` is called with. */
  datatype FetchRequest = FetchRequest(url: string, init: FetchInit)

  /** A call of `request(endpoint, options)`. */
  datatype Call = Call(endpoint: string, options: RequestInit)

  /** `request`'s call of `fetch`, with the headers merged. */
  function Request(base: string, call: Call): (f: FetchRequest)
    ensures f.url == Url(base, call.endpoint)
    ensures f.init == FetchInitMerged(call.options)
    ensures f.init.credentials == "include"
  {
    FetchRequest(Url(base, call.endpoint), FetchInitMerged(call.options))
  }

  // ---------------------------------------------------------------- the envelope

  /** `new ApiError(data.error || 'Unknown error', response.status)`, the error value before its string conversion. */
  datatype ApiError = ApiError(error: Json, status: nat)

  /**
   * How the `request` promise settles: with `data.data` (absent when the envelope has none), with
   * an `ApiError`, or with the exception `response.json()` raises on a body that is not JSON,
   * or the `TypeError` of reading `success` off a `null` body.
   */
  datatype Outcome = Resolved(data: Option<Json>) | Raised(apiError: ApiError) | NotJson | NullBody

  /** `data.error || 'Unknown error'`. */
  function ErrorValue(error: Option<Json>): (e: Json)
    ensures !Falsy(e)
    ensures error.Some? && !Falsy(error.value) ==> e == error.value
    ensures error.None? || Falsy(error.value) ==> e == JString(UnknownError)
  {
    if error.Some? && !Falsy(error.value) then error.value else JString(UnknownError)
  }

  /** The envelope check of `request`, given the status and what `response.json()` gave. */
  function Unwrap(status: nat, parsed: Option<Json>): (o: Outcome)
    ensures o.NotJson? <==> parsed.None?
    ensures o.NullBody? <==> parsed == Some(JNull)
    ensures o.Resolved? <==> (parsed.Some? && parsed.value != JNull &&
      Field(parsed.value, "success").Some? && !Falsy(Field(parsed.value, "success").value))
    ensures o.Resolved? ==> o.data == Field(parsed.value, "data")
    ensures o.Raised? ==> o.apiError == ApiError(ErrorValue(Field(parsed.value, "error")), status)
  {
    match parsed
    case None => NotJson
    case Some(JNull) => NullBody
    case Some(j) =>
      var success := Field(j, "success");
      if success.None? || Falsy(success.value) then Raised(ApiError(ErrorValue(Field(j, "error")), status))
      else Resolved(Field(j, "data"))
  }

  /**
   * What the backend's response body parses to on the client: the handlers' envelope (`data`
   * rendered to JSON by `render`), the validator's `{ success: false, error: <issues> }`, and no
   * JSON at all for the framework's plain-text answer to an uncaught exception.
   */
  function Envelope(body: Body, render: Payload -> Json, issues: Json): (j: Option<Json>)
    ensures j.None? <==> body.InternalError?
  {
    match body
    case Success(None) => Some(JObject([("success", JBool(true))]))
    case Success(Some(p)) => Some(JObject([("success", JBool(true)), ("data", render(p))]))
    case Failure(e) => Some(JObject([("success", JBool(false)), ("error", JString(e))]))
    case InvalidBody => Some(JObject([("success", JBool(false)), ("error", issues)]))
    case InternalError => None
  }

  /** Reading the two members of a two-member object. */
  lemma LookupPair(a: string, va: Json, b: string, vb: Json)
    requires a != b
    ensures Lookup([(a, va), (b, vb)], a) == Some(va) && Lookup([(a, va), (b, vb)], b) == Some(vb)
    ensures forall k :: k != a && k != b ==> Lookup([(a, va), (b, vb)], k).None?
  {
    assert [(a, va), (b, vb)][..1] == [(a, va)];
    assert [(a, va)][..0] == [];
  }

  /** A successful handler response resolves the call with its data, or with nothing when it carries none. */
  lemma SuccessResolves(status: nat, data: Option<Payload>, render: Payload -> Json, issues: Json)
    ensures Unwrap(status, Envelope(Success(data), render, issues)) ==
      Resolved(if data.Some? then Some(render(data.value)) else None)
  {
    if data.Some? {
      LookupPair("success", JBool(true), "data", render(data.value));
    } else {
      assert [("success", JBool(true))][..0] == [];
    }
  }

  /** A handler's error response raises an `ApiError` with its message and the response status; an empty message becomes 'Unknown error'. */
  lemma FailureRaises(status: nat, e: string, render: Payload -> Json, issues: Json)
    ensures Unwrap(status, Envelope(Failure(e), render, issues)) ==
      Raised(ApiError(JString(if e == "" then UnknownError else e), status))
  {
  }

  /** A body the validator refuses raises an `ApiError` carrying the validator's issue object. */
  lemma InvalidBodyRaises(status: nat, render: Payload -> Json, issues: Json)
    requires issues.JObject?
    ensures Unwrap(status, Envelope(InvalidBody, render, issues)) == Raised(ApiError(issues, status))
  {
  }

  /** An uncaught server exception rejects the call with the JSON parse failure, not an `ApiError`. */
  lemma InternalErrorIsNotJson(status: nat, render: Payload -> Json, issues: Json)
    ensures Unwrap(status, Envelope(InternalError, render, issues)) == NotJson
  {
  }

  // ---------------------------------------------------------------- endpoints

  function StatsPath(groupId: string): string
  {
    "/groups/" + groupId + "/prefecture-stats"
  }

  function PinListPath(groupId: string): string
  {
    "/pins/group/" + groupId
  }

  function PinPath(pinId: string): string
  {
    "/pins/" + pinId
  }

  /**
   * The paths below are told apart by their ids whatever the ids hold. For one-segment ids this also
   * follows from the routing lemmas further down; these lemmas cover the empty ids and the ids holding
   * `/` as well, which no route accepts.
   */

  /** The stats path names its group: distinct groups go to distinct paths. */
  lemma StatsPathInjective(g1: string, g2: string)
    requires StatsPath(g1) == StatsPath(g2)
    ensures g1 == g2
  {
    var n := |"/groups/"|;
    assert |g1| == |g2|;
    assert g1 == StatsPath(g1)[n..n + |g1|];
    assert g2 == StatsPath(g2)[n..n + |g2|];
  }

  /** The pin-list path names its group. */
  lemma PinListPathInjective(g1: string, g2: string)
    requires PinListPath(g1) == PinListPath(g2)
    ensures g1 == g2
  {
    assert g1 == PinListPath(g1)[|"/pins/group/"|..];
  }

  /** The pin path names its pin. */
  lemma PinPathInjective(p1: string, p2: string)
    requires PinPath(p1) == PinPath(p2)
    ensures p1 == p2
  {
    assert p1 == PinPath(p1)[|"/pins/"|..];
  }

  /** A slash-free pin id, the empty one included, never addresses a group's pin list. */
  lemma PinPathIsNotPinList(pinId: string, groupId: string)
    requires '/' !in pinId
    ensures PinPath(pinId) != PinListPath(groupId)
  {
    if |pinId| > 5 {
      assert PinPath(pinId)[11] == pinId[5] != '/';
      assert PinListPath(groupId)[11] == '/';
    } else {
      assert |PinPath(pinId)| < |PinListPath(groupId)|;
    }
  }

  function LoginCall(email: string, password: string): (c: Call)
  {
    Call("/auth/login", RequestInit(Some("POST"), None,
      Some(JObject([("email", JString(email)), ("password", JString(password))]))))
  }

  /** `JSON.stringify` drops an undefined `name`, so an absent name is not sent at all. */
  function RegisterCall(email: string, password: string, name: Option<string>): (c: Call)
  {
    var fields := [("email", JString(email)), ("password", JString(password))] +
      (if name.Some? then [("name", JString(name.value))] else []);
    Call("/auth/register", RequestInit(Some("POST"), None, Some(JObject(fields))))
  }

  function LogoutCall(): (c: Call)
  {
    Call("/auth/logout", RequestInit(Some("POST"), None, None))
  }

  function MeCall(): (c: Call)
  {
    Call("/auth/me", RequestInit(None, None, None))
  }

  function CreateGroupCall(name: string, description: Option<string>): (c: Call)
  {
    var fields := [("name", JString(name))] +
      (if description.Some? then [("description", JString(description.value))] else []);
    Call("/groups", RequestInit(Some("POST"), None, Some(JObject(fields))))
  }

  function JoinGroupCall(inviteCode: string): (c: Call)
  {
    Call("/groups/join", RequestInit(Some("POST"), None, Some(JObject([("inviteCode", JString(inviteCode))]))))
  }

  function ListGroupsCall(): (c: Call)
  {
    Call("/groups", RequestInit(None, None, None))
  }

  function GroupStatsCall(groupId: string): (c: Call)
  {
    Call(StatsPath(groupId), RequestInit(None, None, None))
  }

  /** The one call that passes headers of its own: the group id in `X-Group-Id`. */
  function CreatePinCall(groupId: string, pinData: Json): (c: Call)
  {
    Call("/pins", RequestInit(Some("POST"), Some(map[GroupIdHeader := groupId]), Some(pinData)))
  }

  function ListPinsCall(groupId: string): (c: Call)
  {
    Call(PinListPath(groupId), RequestInit(None, None, None))
  }

  function GetPinCall(pinId: string): (c: Call)
  {
    Call(PinPath(pinId), RequestInit(None, None, None))
  }

  function UpdatePinCall(pinId: string, pinData: Json): (c: Call)
  {
    Call(PinPath(pinId), RequestInit(Some("PUT"), None, Some(pinData)))
  }

  function DeletePinCall(pinId: string): (c: Call)
  {
    Call(PinPath(pinId), RequestInit(Some("DELETE"), None, None))
  }

  // ---------------------------------------------------------------- calls and server routes

  /** The method `fetch` uses: the one given, or `GET`. */
  function MethodName(init: RequestInit): string
  {
    init.httpMethod.GetOr("GET")
  }

  /** A call reaches `route`: the server's router dispatches the call's method and endpoint to that handler. */
  predicate Reaches(c: Call, route: Route)
  {
    Dispatch(MethodName(c.options), c.endpoint) == Some(route)
  }

  /** A call whose method and endpoint are those a route is declared with reaches that route. */
  lemma ReachesDeclaredRoute(c: Call, route: Route)
    requires ParamOk(route) && MethodName(c.options) == MethodOf(route) && c.endpoint == PathOf(route)
    ensures Reaches(c, route)
  {
    DispatchReachesRoute(route);
  }

  lemma LoginCallRouted(email: string, password: string)
    ensures Reaches(LoginCall(email, password), LoginRoute)
  {
    ReachesDeclaredRoute(LoginCall(email, password), LoginRoute);
  }

  lemma RegisterCallRouted(email: string, password: string, name: Option<string>)
    ensures Reaches(RegisterCall(email, password, name), RegisterRoute)
  {
    ReachesDeclaredRoute(RegisterCall(email, password, name), RegisterRoute);
  }

  lemma LogoutCallRouted()
    ensures Reaches(LogoutCall(), LogoutRoute)
  {
    ReachesDeclaredRoute(LogoutCall(), LogoutRoute);
  }

  lemma MeCallRouted()
    ensures Reaches(MeCall(), MeRoute)
  {
    ReachesDeclaredRoute(MeCall(), MeRoute);
  }

  lemma CreateGroupCallRouted(name: string, description: Option<string>)
    ensures Reaches(CreateGroupCall(name, description), CreateGroupRoute)
  {
    ReachesDeclaredRoute(CreateGroupCall(name, description), CreateGroupRoute);
  }

  lemma JoinGroupCallRouted(inviteCode: string)
    ensures Reaches(JoinGroupCall(inviteCode), JoinGroupRoute)
  {
    ReachesDeclaredRoute(JoinGroupCall(inviteCode), JoinGroupRoute);
  }

  lemma ListGroupsCallRouted()
    ensures Reaches(ListGroupsCall(), ListGroupsRoute)
  {
    ReachesDeclaredRoute(ListGroupsCall(), ListGroupsRoute);
  }

  lemma GroupStatsCallRouted(groupId: string)
    requires IsSegment(groupId)
    ensures Reaches(GroupStatsCall(groupId), GroupStatsRoute(groupId))
  {
    ReachesDeclaredRoute(GroupStatsCall(groupId), GroupStatsRoute(groupId));
  }

  lemma CreatePinCallRouted(groupId: string, pinData: Json)
    ensures Reaches(CreatePinCall(groupId, pinData), CreatePinRoute)
  {
    ReachesDeclaredRoute(CreatePinCall(groupId, pinData), CreatePinRoute);
  }

  lemma ListPinsCallRouted(groupId: string)
    requires IsSegment(groupId)
    ensures Reaches(ListPinsCall(groupId), ListPinsRoute(groupId))
  {
    ReachesDeclaredRoute(ListPinsCall(groupId), ListPinsRoute(groupId));
  }

  lemma GetPinCallRouted(pinId: string)
    requires IsSegment(pinId)
    ensures Reaches(GetPinCall(pinId), GetPinRoute(pinId))
  {
    ReachesDeclaredRoute(GetPinCall(pinId), GetPinRoute(pinId));
  }

  lemma UpdatePinCallRouted(pinId: string, pinData: Json)
    requires IsSegment(pinId)
    ensures Reaches(UpdatePinCall(pinId, pinData), UpdatePinRoute(pinId))
  {
    ReachesDeclaredRoute(UpdatePinCall(pinId, pinData), UpdatePinRoute(pinId));
  }

  lemma DeletePinCallRouted(pinId: string)
    requires IsSegment(pinId)
    ensures Reaches(DeletePinCall(pinId), DeletePinRoute(pinId))
  {
    ReachesDeclaredRoute(DeletePinCall(pinId), DeletePinRoute(pinId));
  }

  /** Every call but `pins.create` leaves the headers to `request`, so as written they get the JSON content type. */
  lemma OnlyCreatePinSetsHeaders(email: string, password: string, name: Option<string>, description: Option<string>,
                                 groupName: string, inviteCode: string, groupId: string, pinId: string, pinData: Json)
    ensures forall c :: c in [LoginCall(email, password), RegisterCall(email, password, name), LogoutCall(), MeCall(),
        CreateGroupCall(groupName, description), JoinGroupCall(inviteCode), ListGroupsCall(),
        GroupStatsCall(groupId), ListPinsCall(groupId), GetPinCall(pinId), UpdatePinCall(pinId, pinData),
        DeletePinCall(pinId)] ==>
      FetchInitAsWritten(c.options).headers == map[ContentType := JsonMediaType]
  {
  }

  // ---------------------------------------------------------------- the create-pin headers

  /** As written, the create-pin request goes out with `X-Group-Id` alone: no JSON content type. */
  lemma CreatePinLosesContentType(groupId: string, pinData: Json)
    ensures FetchInitAsWritten(CreatePinCall(groupId, pinData).options).headers == map[GroupIdHeader := groupId]
    ensures ContentType !in FetchInitAsWritten(CreatePinCall(groupId, pinData).options).headers
  {
  }

  /** With the headers merged, the create-pin request carries both the JSON content type and the group id. */
  lemma CreatePinKeepsBothHeaders(base: string, groupId: string, pinData: Json)
    ensures Request(base, CreatePinCall(groupId, pinData)).init.headers ==
      map[ContentType := JsonMediaType, GroupIdHeader := groupId]
  {
    var h := Request(base, CreatePinCall(groupId, pinData)).init.headers;
    assert h.Keys == {ContentType, GroupIdHeader};
  }

  // ---------------------------------------------------------------- bodies the schemas accept

  /** The login body carries exactly what the login schema reads: valid credentials pass it unchanged. */
  lemma LoginBodyAccepted(email: string, password: string)
    requires Schemas.IsEmail(email) && Utf16Length(password) >= Schemas.MinPasswordLength
    ensures Schemas.ParseLogin(LoginCall(email, password).options.body.value) == Some(Schemas.LoginRequest(email, password))
  {
    LookupPair("email", JString(email), "password", JString(password));
  }

  /** A body whose three fields hold valid values passes the register schema with exactly those values. */
  lemma RegisterFieldsAccepted(body: Json, email: string, password: string, name: Option<string>)
    requires Schemas.IsEmail(email) && Utf16Length(password) >= Schemas.MinPasswordLength
    requires Field(body, "email") == Some(JString(email)) && Field(body, "password") == Some(JString(password))
    requires name.None? ==> Field(body, "name").None?
    requires name.Some? ==> Field(body, "name") == Some(JString(name.value)) && name.value != ""
    ensures Schemas.ParseRegister(body) == Some(Schemas.RegisterRequest(email, name, password))
  {
    assert StringField(body, "email") == Some(email);
    assert Schemas.RequiredText(body, "password", Schemas.MinPasswordLength) == Some(password);
    if name.Some? {
      assert Utf16Length(name.value) >= 1;
    }
    assert Schemas.OptionalText(body, "name", 1, false) == Some(name);
  }

  /** The register body passes the register schema with the same email, password and name. */
  lemma RegisterBodyAccepted(email: string, password: string, name: Option<string>)
    requires Schemas.IsEmail(email) && Utf16Length(password) >= Schemas.MinPasswordLength
    requires name.Some? ==> name.value != ""
    ensures Schemas.ParseRegister(RegisterCall(email, password, name).options.body.value) ==
      Some(Schemas.RegisterRequest(email, name, password))
  {
    var body := RegisterCall(email, password, name).options.body.value;
    var pair := [("email", JString(email)), ("password", JString(password))];
    LookupPair("email", JString(email), "password", JString(password));
    if name.Some? {
      assert body.members == pair + [("name", JString(name.value))];
      LookupOtherKey(pair, "name", JString(name.value), "email");
      LookupOtherKey(pair, "name", JString(name.value), "password");
      assert Lookup(body.members, "name") == Some(JString(name.value));
    } else {
      assert body.members == pair;
    }
    RegisterFieldsAccepted(body, email, password, name);
  }

  /** The create-group body passes the group schema with the same name and description, once the name is non-empty. */
  lemma CreateGroupBodyAccepted(name: string, description: Option<string>)
    requires name != ""
    ensures Schemas.ParseCreateGroup(CreateGroupCall(name, description).options.body.value) ==
      Some(Schemas.CreateGroupRequest(name, description))
  {
    var body := CreateGroupCall(name, description).options.body.value;
    if description.Some? {
      LookupPair("name", JString(name), "description", JString(description.value));
    } else {
      assert body.members == [("name", JString(name))];
      assert [("name", JString(name))][..0] == [];
    }
    assert Utf16Length(name) >= 1;
    assert Schemas.RequiredText(body, "name", 1) == Some(name);
    assert Schemas.OptionalText(body, "description", 0, false) == Some(description);
  }

  /** The join body passes the join schema with the code typed in, once it is non-empty. */
  lemma JoinBodyAccepted(inviteCode: string)
    requires inviteCode != ""
    ensures Schemas.ParseJoinGroup(JoinGroupCall(inviteCode).options.body.value) == Some(Schemas.JoinGroupRequest(inviteCode))
  {
    assert Field(JoinGroupCall(inviteCode).options.body.value, "inviteCode") == Some(JString(inviteCode));
  }
}
