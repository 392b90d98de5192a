/**
 * The request/response surface the handlers see: the JSON envelope they answer with, the
 * cookies they set, and the per-request context (`c.req`, `c.set`, `c.get`).
 */
module Http {
  import opened Wrappers
  import opened Json
  import opened Store

  /** A `Set-Cookie` the handler emits. */
  datatype SetCookie = SetCookie(name: string, value: string, httpOnly: bool, secure: bool, sameSite: string, maxAge: int)

  /** The caller as `requireAuth` stores it: id and email read from the user table. */
  datatype AuthUser = AuthUser(id: string, email: string)

  /** A pin with its author's public fields (`include: { createdBy: { select: ... } }`). */
  datatype PinView = PinView(pin: Pin, createdBy: UserView)

  datatype Payload =
    | UserData(user: UserView)
    | GroupData(group: GroupView)
    | GroupList(groups: set<GroupSummary>)
    | PinData(view: PinView)
    | PinDetail(view: PinView, pinGroup: Group, groupMembers: set<Membership>)
    | PinList(pins: seq<PinView>)
    | StatsData(stats: seq<PrefectureCount>)

  /**
   * The body of a response: the `{ success, data?, error? }` envelope, the validator's own 400
   * answer for a body that fails its schema, or the framework's answer to an uncaught exception.
   */
  datatype Body =
    | Success(data: Option<Payload>)
    | Failure(error: string)
    | InvalidBody
    | InternalError

  datatype Response = Response(status: nat, body: Body)

  function Ok(data: Option<Payload>): (r: Response)
    ensures r.status == 200 && r.body.Success?
  {
    Response(200, Success(data))
  }

  function Fail(status: nat, error: string): (r: Response)
    ensures r.status == status && r.body == Failure(error)
  {
    Response(status, Failure(error))
  }

  const Rejected := Response(400, InvalidBody)

  /** `value || null` on an optional string: absent and empty both become null. */
  function OrNull(o: Option<string>): (r: Option<string>)
    ensures r.None? <==> o.None? || o.value == ""
    ensures r.Some? ==> r == o
  {
    if o.Some? && o.value != "" then o else None
  }

  /** Reads the header `name` (given in lower case): header names compare case-insensitively. */
  function Header(headers: map<string, string>, name: string): Option<string>
  {
    if name in headers then Some(headers[name]) else None
  }

  /** The context of one request. */
  class Exchange {
    const cookies: map<string, string>
    const params: map<string, string>
    /** Request headers, keyed by their lower-case names. */
    const headers: map<string, string>
    /** The request body, or None when it is not JSON. */
    const body: Option<Json>
    var setCookies: seq<SetCookie>
    var user: Option<AuthUser>
    var groupId: Option<string>

    constructor (cookies: map<string, string>, params: map<string, string>, headers: map<string, string>, body: Option<Json>)
      ensures this.cookies == cookies && this.params == params && this.headers == headers && this.body == body
      ensures setCookies == [] && user == None && groupId == None
    {
      this.cookies, this.params, this.headers, this.body := cookies, params, headers, body;
      setCookies, user, groupId := [], None, None;
    }
  }

  /** `zValidator('json', schema)`: runs `parse` on the body; a body that is not JSON fails as well. */
  function Validate<T>(body: Option<Json>, parse: Json -> Option<T>): (r: Option<T>)
    ensures r.Some? <==> body.Some? && parse(body.value).Some?
    ensures r.Some? ==> r == parse(body.value)
  {
    if body.None? then None else parse(body.value)
  }
}
