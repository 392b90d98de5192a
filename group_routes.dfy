/**
 * `/groups`: create, join by invite code, list the caller's groups, and the per-prefecture pin
 * counts of one group. Authentication runs before the body validator on these routes.
 */
module GroupRoutes {
  import opened Wrappers
  import opened Json
  import opened Store
  import opened Http
  import opened Session
  import opened Schemas
  import opened Middleware

  const InvalidInviteCode := "無効な招待コードです"
  const GroupFull := "このグループは既に満員です"
  const AlreadyMember := "既にこのグループのメンバーです"

  /**
   * `POST /groups`. Order: authentication, schema; then a group with the generated invite code
   * and `description || null`, whose only membership is the creator as admin. A code already in
   * use makes the store's unique constraint throw: 500, nothing stored.
   */
  method CreateGroup(db: Database, cfg: Config, ex: Exchange, newId: string, random: seq<byte>) returns (resp: Response)
    requires db.Valid()
    requires newId !in db.groups && |random| == 8
    modifies db, ex
    ensures db.Valid()
    ensures db.users == old(db.users) && db.pins == old(db.pins)
    ensures ex.setCookies == old(ex.setCookies) && ex.groupId == old(ex.groupId)
    ensures AuthGate(cfg, db.users, ex.cookies).Reject? ==>
      resp == AuthGate(cfg, db.users, ex.cookies).response && ex.user == old(ex.user) &&
      db.groups == old(db.groups) && db.members == old(db.members)
    ensures AuthGate(cfg, db.users, ex.cookies).Continue? ==>
      var uid := AuthGate(cfg, db.users, ex.cookies).value.id;
      var req := Validate(ex.body, ParseCreateGroup);
      var code := GenerateInviteCode(random);
      ex.user == Some(AuthGate(cfg, db.users, ex.cookies).value) &&
      if req.None? then
        resp == Rejected && db.groups == old(db.groups) && db.members == old(db.members)
      else if GroupByCode(old(db.groups), code).Some? then
        resp == Response(500, InternalError) && db.groups == old(db.groups) && db.members == old(db.members)
      else
        db.groups == old(db.groups)[newId := Group(newId, req.value.name, OrNull(req.value.description), code)] &&
        db.members == old(db.members)[(uid, newId) := Membership(uid, newId, AdminRole)] &&
        MemberKeys(db.members, newId) == {(uid, newId)} &&
        resp == Ok(Some(GroupData(GroupViewOf(db.users, db.groups, db.members, newId))))
  {
    var rejection := RequireAuth(db, cfg, ex);
    if rejection.Some? {
      return rejection.value;
    }
    var req := Validate(ex.body, ParseCreateGroup);
    if req.None? {
      return Rejected;
    }
    var user := ex.user.value;
    var code := GenerateInviteCode(random);
    if GroupByCode(db.groups, code).Some? {
      return Response(500, InternalError);
    }
    var group := Group(newId, req.value.name, OrNull(req.value.description), code);
    AddGroupPreserves(db.users, db.groups, db.members, db.pins, group, user.id);
    db.groups := db.groups[newId := group];
    db.members := db.members[(user.id, newId) := Membership(user.id, newId, AdminRole)];
    resp := Ok(Some(GroupData(GroupViewOf(db.users, db.groups, db.members, newId))));
  }

  /**
   * `POST /groups/join`. Order: authentication, schema, unknown code (400), a group that already
   * has two members (400, so an existing member of a full group is told it is full), the caller
   * already a member (400); then exactly one membership (caller, group, member) is added.
   */
  method JoinGroup(db: Database, cfg: Config, ex: Exchange) returns (resp: Response)
    requires db.Valid()
    modifies db, ex
    ensures db.Valid()
    ensures db.users == old(db.users) && db.groups == old(db.groups) && db.pins == old(db.pins)
    ensures ex.setCookies == old(ex.setCookies) && ex.groupId == old(ex.groupId)
    ensures AuthGate(cfg, db.users, ex.cookies).Reject? ==>
      resp == AuthGate(cfg, db.users, ex.cookies).response && ex.user == old(ex.user) && db.members == old(db.members)
    ensures AuthGate(cfg, db.users, ex.cookies).Continue? ==>
      var uid := AuthGate(cfg, db.users, ex.cookies).value.id;
      var req := Validate(ex.body, ParseJoinGroup);
      ex.user == Some(AuthGate(cfg, db.users, ex.cookies).value) &&
      if req.None? then
        resp == Rejected && db.members == old(db.members)
      else
        var found := GroupByCode(db.groups, req.value.inviteCode);
        if found.None? then
          resp == Fail(400, InvalidInviteCode) && db.members == old(db.members)
        else if |MemberKeys(old(db.members), found.value)| >= MaxGroupMembers then
          resp == Fail(400, GroupFull) && db.members == old(db.members)
        else if HasMember(old(db.members), uid, found.value) then
          resp == Fail(400, AlreadyMember) && db.members == old(db.members)
        else
          db.members == old(db.members)[(uid, found.value) := Membership(uid, found.value, MemberRole)] &&
          |MemberKeys(db.members, found.value)| == |MemberKeys(old(db.members), found.value)| + 1 &&
          resp == Ok(Some(GroupData(GroupViewOf(db.users, db.groups, db.members, found.value))))
  {
    var rejection := RequireAuth(db, cfg, ex);
    if rejection.Some? {
      return rejection.value;
    }
    var req := Validate(ex.body, ParseJoinGroup);
    if req.None? {
      return Rejected;
    }
    var user := ex.user.value;
    var found := GroupByCode(db.groups, req.value.inviteCode);
    if found.None? {
      return Fail(400, InvalidInviteCode);
    }
    var g := found.value;
    if |MemberKeys(db.members, g)| >= MaxGroupMembers {
      return Fail(400, GroupFull);
    }
    if HasMember(db.members, user.id, g) {
      return Fail(400, AlreadyMember);
    }
    HasMemberIsKeyLookup(db.users, db.groups, db.members, user.id, g);
    JoinPreserves(db.users, db.groups, db.members, db.pins, user.id, g);
    db.members := db.members[(user.id, g) := Membership(user.id, g, MemberRole)];
    resp := Ok(Some(GroupData(GroupViewOf(db.users, db.groups, db.members, g))));
  }

  /** `coupleGroup.findMany({ where: { members: { some: { userId } } } })` with members and pin counts. */
  function GroupsOfUser(users: Users, groups: Groups, members: Members, pins: seq<Pin>, uid: string): (r: set<GroupSummary>)
    requires GroupsWellFormed(groups)
    ensures forall g :: g in groups ==> (HasMember(members, uid, g) <==> exists s :: s in r && s.group.id == g)
    ensures forall s :: s in r ==> (s.group.id in groups && s.group == groups[s.group.id] &&
      HasMember(members, uid, s.group.id) &&
      s.members == MembersView(users, members, s.group.id) &&
      s.pinCount == |PinsOfGroup(pins, s.group.id)|)
  {
    var r := set g | g in groups && HasMember(members, uid, g) :: GroupSummary(groups[g], MembersView(users, members, g), |PinsOfGroup(pins, g)|);
    assert forall g :: g in groups && HasMember(members, uid, g) ==>
      GroupSummary(groups[g], MembersView(users, members, g), |PinsOfGroup(pins, g)|) in r;
    r
  }

  /** `GET /groups`: the gate's answer, or exactly the groups the caller belongs to. */
  function ListGroups(db: Database, cfg: Config, cookies: map<string, string>): (r: Response)
    requires db.Valid()
    reads db
    ensures AuthGate(cfg, db.users, cookies).Reject? ==> r == AuthGate(cfg, db.users, cookies).response
    ensures AuthGate(cfg, db.users, cookies).Continue? ==> (r.status == 200 && r.body.Success? &&
      r.body.data.Some? && r.body.data.value.GroupList? &&
      forall g :: g in db.groups ==> ((AuthGate(cfg, db.users, cookies).value.id, g) in db.members <==>
        exists s :: s in r.body.data.value.groups && s.group.id == g))
    ensures AuthGate(cfg, db.users, cookies).Continue? ==> (r.body.Success? && r.body.data.Some? &&
      r.body.data.value.GroupList? && forall s :: s in r.body.data.value.groups ==>
        (s.group.id in db.groups && s.group == db.groups[s.group.id] &&
         s.members == MembersView(db.users, db.members, s.group.id) &&
         s.pinCount == |PinsOfGroup(db.pins, s.group.id)|))
  {
    match AuthGate(cfg, db.users, cookies)
    case Reject(rejection) => rejection
    case Continue(user) =>
      var r := Ok(Some(GroupList(GroupsOfUser(db.users, db.groups, db.members, db.pins, user.id))));
      assert forall g :: g in db.groups ==> (HasMember(db.members, user.id, g) <==> (user.id, g) in db.members) by {
        forall g | g in db.groups ensures HasMember(db.members, user.id, g) <==> (user.id, g) in db.members {
          HasMemberIsKeyLookup(db.users, db.groups, db.members, user.id, g);
        }
      }
      r
  }

  // ---------------------------------------------------------------- prefecture stats

  /** The number of pins of `ps` in prefecture `x`. */
  function CountIn(ps: seq<Pin>, x: string): nat
  {
    if |ps| == 0 then 0 else CountIn(ps[..|ps| - 1], x) + (if ps[|ps| - 1].prefecture == x then 1 else 0)
  }

  function Keys(stats: seq<PrefectureCount>): set<string>
  {
    if |stats| == 0 then {} else {stats[0].prefecture} + Keys(stats[1..])
  }

  predicate DistinctKeys(stats: seq<PrefectureCount>)
  {
    |stats| == 0 || (stats[0].prefecture !in Keys(stats[1..]) && DistinctKeys(stats[1..]))
  }

  predicate AllPositive(stats: seq<PrefectureCount>)
  {
    forall i :: 0 <= i < |stats| ==> stats[i].count > 0
  }

  /** The count recorded for `x` (0 when `x` has no entry). */
  function CountFor(stats: seq<PrefectureCount>, x: string): nat
  {
    if |stats| == 0 then 0 else (if stats[0].prefecture == x then stats[0].count else 0) + CountFor(stats[1..], x)
  }

  function Total(stats: seq<PrefectureCount>): nat
  {
    if |stats| == 0 then 0 else stats[0].count + Total(stats[1..])
  }

  /** Counts one more pin in prefecture `x`. */
  function Bump(stats: seq<PrefectureCount>, x: string): (r: seq<PrefectureCount>)
    ensures Keys(r) == Keys(stats) + {x}
    ensures DistinctKeys(stats) ==> DistinctKeys(r)
    ensures AllPositive(stats) ==> AllPositive(r)
    ensures forall y :: CountFor(r, y) == CountFor(stats, y) + (if y == x then 1 else 0)
    ensures Total(r) == Total(stats) + 1
  {
    if |stats| == 0 then [PrefectureCount(x, 1)]
    else if stats[0].prefecture == x then
      [PrefectureCount(x, stats[0].count + 1)] + stats[1..]
    else
      var rest := Bump(stats[1..], x);
      assert ([stats[0]] + rest)[1..] == rest;
      [stats[0]] + rest
  }

  /**
   * `placePin.groupBy({ by: ['prefecture'], _count })`: one entry per distinct prefecture among
   * `ps`, each holding the number of those pins, so the counts add up to `|ps|`.
   */
  function Tally(ps: seq<Pin>): (r: seq<PrefectureCount>)
    ensures DistinctKeys(r) && AllPositive(r)
    ensures Keys(r) == set p | p in ps :: p.prefecture
    ensures forall x :: CountFor(r, x) == CountIn(ps, x)
    ensures Total(r) == |ps|
  {
    if |ps| == 0 then []
    else
      var init := ps[..|ps| - 1];
      assert ps == init + [ps[|ps| - 1]];
      Bump(Tally(init), ps[|ps| - 1].prefecture)
  }

  lemma {:induction false} CountForEntry(stats: seq<PrefectureCount>, i: nat)
    requires DistinctKeys(stats) && i < |stats|
    ensures CountFor(stats, stats[i].prefecture) == stats[i].count
  {
    if i == 0 {
      CountForMissing(stats[1..], stats[0].prefecture);
    } else {
      CountForEntry(stats[1..], i - 1);
      assert stats[i].prefecture in Keys(stats[1..]) by { KeyOfEntry(stats[1..], i - 1); }
    }
  }

  lemma {:induction false} CountForMissing(stats: seq<PrefectureCount>, x: string)
    requires x !in Keys(stats)
    ensures CountFor(stats, x) == 0
  {
    if |stats| > 0 {
      CountForMissing(stats[1..], x);
    }
  }

  lemma {:induction false} KeyOfEntry(stats: seq<PrefectureCount>, i: nat)
    requires i < |stats|
    ensures stats[i].prefecture in Keys(stats)
  {
    if i > 0 {
      KeyOfEntry(stats[1..], i - 1);
    }
  }

  /** Each entry of the group's stats holds exactly the number of its pins in that prefecture. */
  lemma StatsEntryCounts(ps: seq<Pin>, i: nat)
    requires i < |Tally(ps)|
    ensures Tally(ps)[i].count == CountIn(ps, Tally(ps)[i].prefecture) > 0
  {
    CountForEntry(Tally(ps), i);
  }

  /** `GET /groups/:groupId/prefecture-stats`: the gates' answers, or the tally of the group's pins. */
  function PrefectureStats(db: Database, cfg: Config, cookies: map<string, string>, params: map<string, string>): (r: Response)
    reads db
    ensures AuthGate(cfg, db.users, cookies).Reject? ==> r == AuthGate(cfg, db.users, cookies).response
    ensures AuthGate(cfg, db.users, cookies).Continue? ==>
      var member := MemberGate(db.members, AuthGate(cfg, db.users, cookies).value, params);
      (member.Reject? ==> r == member.response) &&
      (member.Continue? ==> (r.status == 200 && r.body.Success? && r.body.data.Some? && r.body.data.value.StatsData? &&
        DistinctKeys(r.body.data.value.stats) &&
        Keys(r.body.data.value.stats) == (set p | p in PinsOfGroup(db.pins, member.value) :: p.prefecture) &&
        Total(r.body.data.value.stats) == |PinsOfGroup(db.pins, member.value)| &&
        forall x :: CountFor(r.body.data.value.stats, x) == CountIn(PinsOfGroup(db.pins, member.value), x)))
  {
    match AuthGate(cfg, db.users, cookies)
    case Reject(rejection) => rejection
    case Continue(user) =>
      match MemberGate(db.members, user, params)
      case Reject(rejection) => rejection
      case Continue(g) => Ok(Some(StatsData(Tally(PinsOfGroup(db.pins, g)))))
  }
}
