/**
 * `/pins`: create (into the group named by the `X-Group-Id` header), list a group's pins,
 * get, update and delete one pin. Reading and changing a pin is authorized by membership of
 * its group, not by authorship.
 */
module PinRoutes {
  import opened Wrappers
  import opened Json
  import opened Store
  import opened Http
  import opened Session
  import opened Schemas
  import opened Middleware

  const PinCreateFailed := "ピンの作成に失敗しました: "
  const PinNotFound := "ピンが見つかりません"
  const NoPinAccess := "このピンにアクセスする権限がありません"
  const NoPinEdit := "このピンを編集する権限がありません"
  const NoPinDelete := "このピンを削除する権限がありません"

  /** JavaScript truthiness of an optional string. */
  predicate Truthy(o: Option<string>)
  {
    o.Some? && o.value != ""
  }

  // ---------------------------------------------------------------- rows and views

  /** The row `placePin.create` stores for a validated request: `...pinData`, the group, the author, `visitedAt`. */
  function NewPin(id: string, g: string, uid: string, c: CreatePinRequest, now: int, parseDate: string -> int): (p: Pin)
    ensures p.id == id && p.groupId == g && p.createdById == uid
    ensures p.title == c.title && p.description == c.description && p.latitude == c.latitude &&
      p.longitude == c.longitude && p.prefecture == c.prefecture && p.address == c.address
    ensures !Truthy(c.visitedAt) ==> p.visitedAt == now
    ensures Truthy(c.visitedAt) ==> p.visitedAt == parseDate(c.visitedAt.value)
  {
    Pin(id, g, uid, c.title, c.description, c.latitude, c.longitude, c.prefecture, c.address,
      if Truthy(c.visitedAt) then parseDate(c.visitedAt.value) else now)
  }

  /** A validated `visitedAt` is never empty, so it is always the supplied date that is stored when one is sent. */
  lemma SuppliedVisitedAtIsUsed(body: Json)
    requires ParseCreatePin(body).Some? && ParseCreatePin(body).value.visitedAt.Some?
    ensures Truthy(ParseCreatePin(body).value.visitedAt)
  {
  }

  /** `placePin.update({ data: { ...updateData, visitedAt } })`: supplied fields replace, omitted fields stay. */
  function ApplyPatch(p: Pin, patch: PinPatch, parseDate: string -> int): (q: Pin)
    ensures q.id == p.id && q.groupId == p.groupId && q.createdById == p.createdById
    ensures q.title == patch.title.GetOr(p.title) && q.prefecture == patch.prefecture.GetOr(p.prefecture)
    ensures q.latitude == patch.latitude.GetOr(p.latitude) && q.longitude == patch.longitude.GetOr(p.longitude)
    ensures patch.description.None? ==> q.description == p.description
    ensures patch.description.Some? ==> q.description == patch.description
    ensures patch.address.None? ==> q.address == p.address
    ensures patch.address.Some? ==> q.address == patch.address
    ensures q.visitedAt == if Truthy(patch.visitedAt) then parseDate(patch.visitedAt.value) else p.visitedAt
  {
    Pin(p.id, p.groupId, p.createdById,
      patch.title.GetOr(p.title),
      if patch.description.Some? then patch.description else p.description,
      patch.latitude.GetOr(p.latitude), patch.longitude.GetOr(p.longitude),
      patch.prefecture.GetOr(p.prefecture),
      if patch.address.Some? then patch.address else p.address,
      if Truthy(patch.visitedAt) then parseDate(patch.visitedAt.value) else p.visitedAt)
  }

  /** The empty update changes nothing. */
  lemma EmptyPatchKeepsPin(p: Pin, parseDate: string -> int)
    ensures ApplyPatch(p, PinPatch(None, None, None, None, None, None, None), parseDate) == p
  {
  }

  /** Sending the same update twice has the effect of sending it once. */
  lemma PatchIdempotent(p: Pin, patch: PinPatch, parseDate: string -> int)
    ensures ApplyPatch(ApplyPatch(p, patch, parseDate), patch, parseDate) == ApplyPatch(p, patch, parseDate)
  {
  }

  function ViewsOf(users: Users, ps: seq<Pin>): (r: seq<PinView>)
    requires forall i :: 0 <= i < |ps| ==> ps[i].createdById in users
    ensures |r| == |ps|
    ensures forall i :: 0 <= i < |ps| ==> r[i].pin == ps[i] && r[i].createdBy == ViewOf(users[ps[i].createdById])
  {
    if |ps| == 0 then [] else [PinView(ps[0], ViewOf(users[ps[0].createdById]))] + ViewsOf(users, ps[1..])
  }

  function PinsIn(views: seq<PinView>): (r: seq<Pin>)
    ensures |r| == |views| && forall i :: 0 <= i < |views| ==> r[i] == views[i].pin
  {
    if |views| == 0 then [] else [views[0].pin] + PinsIn(views[1..])
  }

  /** The memberships of group `g` (`group: { include: { members: true } }`). */
  function MembershipsOf(members: Members, g: string): set<Membership>
  {
    set k | k in members && k.1 == g :: members[k]
  }

  // ---------------------------------------------------------------- ordering

  predicate SortedByVisitedDesc(ps: seq<Pin>)
  {
    forall i, j :: 0 <= i < j < |ps| ==> ps[i].visitedAt >= ps[j].visitedAt
  }

  function InsertByVisited(p: Pin, sorted: seq<Pin>): (r: seq<Pin>)
    requires SortedByVisitedDesc(sorted)
    ensures |r| == |sorted| + 1
    ensures r[0] == p || (|sorted| > 0 && r[0] == sorted[0])
    ensures SortedByVisitedDesc(r)
    ensures multiset(r) == multiset(sorted) + multiset{p}
  {
    if |sorted| == 0 then [p]
    else if p.visitedAt >= sorted[0].visitedAt then [p] + sorted
    else
      var head, tail := sorted[0], sorted[1..];
      var rest := InsertByVisited(p, tail);
      assert sorted == [head] + tail;
      var r := [head] + rest;
      assert forall k :: 1 <= k < |r| ==> r[k] == rest[k - 1];
      assert rest[0].visitedAt <= head.visitedAt;
      r
  }

  /** `orderBy: { visitedAt: 'desc' }`: the same pins, latest visit first. */
  function OrderByVisitedDesc(ps: seq<Pin>): (r: seq<Pin>)
    ensures SortedByVisitedDesc(r)
    ensures multiset(r) == multiset(ps)
  {
    if |ps| == 0 then []
    else
      assert ps == [ps[0]] + ps[1..];
      InsertByVisited(ps[0], OrderByVisitedDesc(ps[1..]))
  }

  lemma SameElements(a: seq<Pin>, b: seq<Pin>)
    requires multiset(a) == multiset(b)
    ensures forall p :: p in a <==> p in b
  {
    forall p ensures p in a <==> p in b {
      assert p in a <==> p in multiset(a);
      assert p in b <==> p in multiset(b);
    }
  }

  // ---------------------------------------------------------------- handlers

  /**
   * `POST /pins`. Order: authentication (401), schema (400), missing `X-Group-Id` (400), caller
   * not a member of that group (403); a store failure is answered 500 with its message; otherwise
   * exactly one pin is appended, in the header's group, authored by the caller.
   */
  method CreatePin(db: Database, cfg: Config, ex: Exchange, newId: string, now: int, parseDate: string -> int,
                   fault: Option<string>) returns (resp: Response)
    requires db.Valid()
    requires FindPin(db.pins, newId).None?
    modifies db, ex
    ensures db.Valid()
    ensures db.users == old(db.users) && db.groups == old(db.groups) && db.members == old(db.members)
    ensures ex.setCookies == old(ex.setCookies) && ex.groupId == old(ex.groupId)
    ensures AuthGate(cfg, db.users, ex.cookies).Reject? ==>
      resp == AuthGate(cfg, db.users, ex.cookies).response && ex.user == old(ex.user) && db.pins == old(db.pins)
    ensures AuthGate(cfg, db.users, ex.cookies).Continue? ==>
      var uid := AuthGate(cfg, db.users, ex.cookies).value.id;
      var req := Validate(ex.body, ParseCreatePin);
      var g := Header(ex.headers, "x-group-id");
      ex.user == Some(AuthGate(cfg, db.users, ex.cookies).value) &&
      if req.None? then
        resp == Rejected && db.pins == old(db.pins)
      else if g.None? || g.value == "" then
        resp == Fail(400, GroupIdRequired) && db.pins == old(db.pins)
      else if (uid, g.value) !in db.members then
        resp == Fail(403, NoGroupAccess) && db.pins == old(db.pins)
      else if fault.Some? then
        resp == Fail(500, PinCreateFailed + fault.value) && db.pins == old(db.pins)
      else
        var pin := NewPin(newId, g.value, uid, req.value, now, parseDate);
        db.pins == old(db.pins) + [pin] &&
        resp == Ok(Some(PinData(PinView(pin, ViewOf(db.users[uid])))))
  {
    var rejection := RequireAuth(db, cfg, ex);
    if rejection.Some? {
      return rejection.value;
    }
    resp := InsertPin(db, ex, ex.user.value, newId, now, parseDate, fault);
  }

  /** The part of `POST /pins` after `requireAuth`, for the authenticated `user`. */
  method InsertPin(db: Database, ex: Exchange, user: AuthUser, newId: string, now: int, parseDate: string -> int,
                   fault: Option<string>) returns (resp: Response)
    requires db.Valid()
    requires FindPin(db.pins, newId).None? && user.id in db.users
    modifies db
    ensures db.Valid()
    ensures db.users == old(db.users) && db.groups == old(db.groups) && db.members == old(db.members)
    ensures
      var req := Validate(ex.body, ParseCreatePin);
      var g := Header(ex.headers, "x-group-id");
      if req.None? then
        resp == Rejected && db.pins == old(db.pins)
      else if g.None? || g.value == "" then
        resp == Fail(400, GroupIdRequired) && db.pins == old(db.pins)
      else if (user.id, g.value) !in db.members then
        resp == Fail(403, NoGroupAccess) && db.pins == old(db.pins)
      else if fault.Some? then
        resp == Fail(500, PinCreateFailed + fault.value) && db.pins == old(db.pins)
      else
        var pin := NewPin(newId, g.value, user.id, req.value, now, parseDate);
        db.pins == old(db.pins) + [pin] &&
        resp == Ok(Some(PinData(PinView(pin, ViewOf(db.users[user.id])))))
  {
    var req := Validate(ex.body, ParseCreatePin);
    if req.None? {
      return Rejected;
    }
    resp := InsertValidPin(db, ex.headers, user, req.value, newId, now, parseDate, fault);
  }

  /** The part of `POST /pins` after validation, for the validated request `req`. */
  method InsertValidPin(db: Database, headers: map<string, string>, user: AuthUser, req: CreatePinRequest,
                        newId: string, now: int, parseDate: string -> int, fault: Option<string>) returns (resp: Response)
    requires db.Valid()
    requires FindPin(db.pins, newId).None? && user.id in db.users
    modifies db
    ensures db.Valid()
    ensures db.users == old(db.users) && db.groups == old(db.groups) && db.members == old(db.members)
    ensures
      var g := Header(headers, "x-group-id");
      if g.None? || g.value == "" then
        resp == Fail(400, GroupIdRequired) && db.pins == old(db.pins)
      else if (user.id, g.value) !in db.members then
        resp == Fail(403, NoGroupAccess) && db.pins == old(db.pins)
      else if fault.Some? then
        resp == Fail(500, PinCreateFailed + fault.value) && db.pins == old(db.pins)
      else
        var pin := NewPin(newId, g.value, user.id, req, now, parseDate);
        db.pins == old(db.pins) + [pin] &&
        resp == Ok(Some(PinData(PinView(pin, ViewOf(db.users[user.id])))))
  {
    var g := Header(headers, "x-group-id");
    if g.None? || g.value == "" {
      return Fail(400, GroupIdRequired);
    }
    if (user.id, g.value) !in db.members {
      return Fail(403, NoGroupAccess);
    }
    if fault.Some? {
      return Fail(500, PinCreateFailed + fault.value);
    }
    var pin := NewPin(newId, g.value, user.id, req, now, parseDate);
    AddPinPreserves(db.users, db.groups, db.members, db.pins, pin);
    db.pins := db.pins + [pin];
    resp := Ok(Some(PinData(PinView(pin, ViewOf(db.users[user.id])))));
  }

  /** `GET /pins/group/:groupId`: the gates' answers, or exactly the group's pins, latest visit first. */
  function ListPins(db: Database, cfg: Config, cookies: map<string, string>, params: map<string, string>): (r: Response)
    requires db.Valid()
    reads db
    ensures AuthGate(cfg, db.users, cookies).Reject? ==> r == AuthGate(cfg, db.users, cookies).response
    ensures AuthGate(cfg, db.users, cookies).Continue? ==>
      var member := MemberGate(db.members, AuthGate(cfg, db.users, cookies).value, params);
      (member.Reject? ==> r == member.response) &&
      (member.Continue? ==> (r.status == 200 && r.body.Success? && r.body.data.Some? && r.body.data.value.PinList? &&
        SortedByVisitedDesc(PinsIn(r.body.data.value.pins)) &&
        multiset(PinsIn(r.body.data.value.pins)) == multiset(PinsOfGroup(db.pins, member.value)) &&
        (forall p :: p in PinsIn(r.body.data.value.pins) <==> p in db.pins && p.groupId == member.value) &&
        forall v :: v in r.body.data.value.pins ==>
          v.pin.createdById in db.users && v.createdBy == ViewOf(db.users[v.pin.createdById])))
  {
    match AuthGate(cfg, db.users, cookies)
    case Reject(rejection) => rejection
    case Continue(user) =>
      match MemberGate(db.members, user, params)
      case Reject(rejection) => rejection
      case Continue(g) =>
        var ordered := OrderByVisitedDesc(PinsOfGroup(db.pins, g));
        SameElements(ordered, PinsOfGroup(db.pins, g));
        var views := ViewsOf(db.users, ordered);
        assert PinsIn(views) == ordered;
        Ok(Some(PinList(views)))
  }

  /**
   * `GET /pins/:pinId`: the gate's answer; 404 for an unknown id before any membership check;
   * 403 when the caller is not a member of the pin's group; otherwise the pin, its group with
   * its memberships, and its author.
   */
  function GetPin(db: Database, cfg: Config, cookies: map<string, string>, params: map<string, string>): (r: Response)
    requires db.Valid()
    requires "pinId" in params
    reads db
    ensures AuthGate(cfg, db.users, cookies).Reject? ==> r == AuthGate(cfg, db.users, cookies).response
    ensures AuthGate(cfg, db.users, cookies).Continue? ==>
      var uid := AuthGate(cfg, db.users, cookies).value.id;
      var found := FindPin(db.pins, params["pinId"]);
      (found.None? ==> r == Fail(404, PinNotFound)) &&
      (found.Some? && !HasMember(db.members, uid, db.pins[found.value].groupId) ==> r == Fail(403, NoPinAccess)) &&
      (found.Some? && HasMember(db.members, uid, db.pins[found.value].groupId) ==> (r.status == 200 &&
        r.body.Success? && r.body.data.Some? && r.body.data.value.PinDetail? &&
        r.body.data.value.view.pin == db.pins[found.value] && r.body.data.value.view.pin.id == params["pinId"] &&
        db.pins[found.value].createdById in db.users &&
        r.body.data.value.view.createdBy == ViewOf(db.users[db.pins[found.value].createdById]) &&
        r.body.data.value.pinGroup == db.groups[db.pins[found.value].groupId] &&
        r.body.data.value.groupMembers == MembershipsOf(db.members, db.pins[found.value].groupId)))
  {
    match AuthGate(cfg, db.users, cookies)
    case Reject(rejection) => rejection
    case Continue(user) =>
      match FindPin(db.pins, params["pinId"])
      case None => Fail(404, PinNotFound)
      case Some(i) =>
        var pin := db.pins[i];
        if !HasMember(db.members, user.id, pin.groupId) then Fail(403, NoPinAccess)
        else Ok(Some(PinDetail(PinView(pin, ViewOf(db.users[pin.createdById])), db.groups[pin.groupId],
          MembershipsOf(db.members, pin.groupId))))
  }

  /** Any member of a pin's group may read it, whoever created it. */
  lemma MemberReadsOthersPin(db: Database, cfg: Config, cookies: map<string, string>, params: map<string, string>, i: nat)
    requires db.Valid() && "pinId" in params
    requires i < |db.pins| && db.pins[i].id == params["pinId"]
    requires AuthGate(cfg, db.users, cookies).Continue?
    requires (AuthGate(cfg, db.users, cookies).value.id, db.pins[i].groupId) in db.members
    ensures GetPin(db, cfg, cookies, params).status == 200
  {
    var uid := AuthGate(cfg, db.users, cookies).value.id;
    var found := FindPin(db.pins, params["pinId"]);
    assert found.Some? && found.value == i;
    assert HasMember(db.members, uid, db.pins[i].groupId) by {
      HasMemberIsKeyLookup(db.users, db.groups, db.members, uid, db.pins[i].groupId);
    }
  }

  /**
   * `PUT /pins/:pinId`. Order: authentication, schema, unknown id (404), caller not a member of
   * the pin's group (403); then that one row is rewritten with the supplied fields.
   */
  method UpdatePin(db: Database, cfg: Config, ex: Exchange, parseDate: string -> int) returns (resp: Response)
    requires db.Valid()
    requires "pinId" in ex.params
    modifies db, ex
    ensures db.Valid()
    ensures db.users == old(db.users) && db.groups == old(db.groups) && db.members == old(db.members)
    ensures ex.setCookies == old(ex.setCookies) && ex.groupId == old(ex.groupId)
    ensures AuthGate(cfg, db.users, ex.cookies).Reject? ==>
      resp == AuthGate(cfg, db.users, ex.cookies).response && ex.user == old(ex.user) && db.pins == old(db.pins)
    ensures AuthGate(cfg, db.users, ex.cookies).Continue? ==>
      var uid := AuthGate(cfg, db.users, ex.cookies).value.id;
      var patch := Validate(ex.body, ParseUpdatePin);
      var found := FindPin(old(db.pins), ex.params["pinId"]);
      ex.user == Some(AuthGate(cfg, db.users, ex.cookies).value) &&
      if patch.None? then
        resp == Rejected && db.pins == old(db.pins)
      else if found.None? then
        resp == Fail(404, PinNotFound) && db.pins == old(db.pins)
      else if !HasMember(db.members, uid, old(db.pins)[found.value].groupId) then
        resp == Fail(403, NoPinEdit) && db.pins == old(db.pins)
      else
        var updated := ApplyPatch(old(db.pins)[found.value], patch.value, parseDate);
        db.pins == old(db.pins)[found.value := updated] &&
        resp == Ok(Some(PinData(PinView(updated, ViewOf(db.users[updated.createdById])))))
  {
    var rejection := RequireAuth(db, cfg, ex);
    if rejection.Some? {
      return rejection.value;
    }
    var patch := Validate(ex.body, ParseUpdatePin);
    if patch.None? {
      return Rejected;
    }
    var user := ex.user.value;
    var found := FindPin(db.pins, ex.params["pinId"]);
    if found.None? {
      return Fail(404, PinNotFound);
    }
    var i := found.value;
    if !HasMember(db.members, user.id, db.pins[i].groupId) {
      return Fail(403, NoPinEdit);
    }
    var updated := ApplyPatch(db.pins[i], patch.value, parseDate);
    ReplacePinPreserves(db.users, db.groups, db.members, db.pins, i, updated);
    db.pins := db.pins[i := updated];
    resp := Ok(Some(PinData(PinView(updated, ViewOf(db.users[updated.createdById])))));
  }

  /**
   * `DELETE /pins/:pinId`. Order: authentication, unknown id (404), caller not a member of the
   * pin's group (403); then exactly that pin is removed.
   */
  method DeletePin(db: Database, cfg: Config, ex: Exchange) returns (resp: Response)
    requires db.Valid()
    requires "pinId" in ex.params
    modifies db, ex
    ensures db.Valid()
    ensures db.users == old(db.users) && db.groups == old(db.groups) && db.members == old(db.members)
    ensures ex.setCookies == old(ex.setCookies) && ex.groupId == old(ex.groupId)
    ensures AuthGate(cfg, db.users, ex.cookies).Reject? ==>
      resp == AuthGate(cfg, db.users, ex.cookies).response && ex.user == old(ex.user) && db.pins == old(db.pins)
    ensures AuthGate(cfg, db.users, ex.cookies).Continue? ==>
      var uid := AuthGate(cfg, db.users, ex.cookies).value.id;
      var found := FindPin(old(db.pins), ex.params["pinId"]);
      ex.user == Some(AuthGate(cfg, db.users, ex.cookies).value) &&
      if found.None? then
        resp == Fail(404, PinNotFound) && db.pins == old(db.pins)
      else if !HasMember(db.members, uid, old(db.pins)[found.value].groupId) then
        resp == Fail(403, NoPinDelete) && db.pins == old(db.pins)
      else
        resp == Ok(None) &&
        db.pins == old(db.pins)[..found.value] + old(db.pins)[found.value + 1..] &&
        |db.pins| == |old(db.pins)| - 1 &&
        forall q :: q in db.pins <==> q in old(db.pins) && q.id != ex.params["pinId"]
  {
    var rejection := RequireAuth(db, cfg, ex);
    if rejection.Some? {
      return rejection.value;
    }
    var user := ex.user.value;
    var pinId := ex.params["pinId"];
    var found := FindPin(db.pins, pinId);
    if found.None? {
      return Fail(404, PinNotFound);
    }
    var i := found.value;
    if !HasMember(db.members, user.id, db.pins[i].groupId) {
      return Fail(403, NoPinDelete);
    }
    RemoveOnlyTarget(db.pins, i);
    RemovePinPreserves(db.users, db.groups, db.members, db.pins, i);
    db.pins := db.pins[..i] + db.pins[i + 1..];
    resp := Ok(None);
  }

  /** With distinct ids, cutting out row `i` removes exactly the rows with that row's id. */
  lemma RemoveOnlyTarget(pins: seq<Pin>, i: nat)
    requires DistinctIds(pins) && i < |pins|
    ensures forall q :: q in pins[..i] + pins[i + 1..] <==> q in pins && q.id != pins[i].id
  {
    var rest := pins[..i] + pins[i + 1..];
    forall q | q in rest ensures q in pins && q.id != pins[i].id {
      var k :| 0 <= k < |rest| && rest[k] == q;
      var k' := if k < i then k else k + 1;
      assert pins[k'] == q;
    }
    forall q | q in pins && q.id != pins[i].id ensures q in rest {
      var k :| 0 <= k < |pins| && pins[k] == q;
      if k < i {
        assert rest[k] == q;
      } else {
        assert rest[k - 1] == q;
      }
    }
  }
}
