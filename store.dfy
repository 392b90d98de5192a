/**
 * The relational store behind the routes, as in-memory tables: users and groups keyed by
 * id, memberships keyed by the composite key (userId, groupId), and the pin table as its
 * sequence of rows. `Consistent` is the invariant every handler keeps.
 */
module Store {
  import opened Wrappers

  datatype User = User(id: string, email: string, name: Option<string>, passwordHash: string)
  datatype Group = Group(id: string, name: string, description: Option<string>, inviteCode: string)
  datatype Membership = Membership(userId: string, groupId: string, role: string)
  datatype Pin = Pin(
    id: string, groupId: string, createdById: string, title: string, description: Option<string>,
    latitude: real, longitude: real, prefecture: string, address: Option<string>,
    visitedAt: int)  // milliseconds since the epoch

  type Users = map<string, User>
  type Groups = map<string, Group>
  type Members = map<(string, string), Membership>

  const AdminRole := "admin"
  const MemberRole := "member"
  const MaxGroupMembers := 2

  /** What the routes return for a user (`select id, email, name`): never the password hash. */
  datatype UserView = UserView(id: string, email: string, name: Option<string>)
  datatype MemberView = MemberView(membership: Membership, user: UserView)
  /** A group with its members, each with the user's public fields. */
  datatype GroupView = GroupView(group: Group, members: set<MemberView>)
  /** A group as the group list returns it: with its members and the number of its pins. */
  datatype GroupSummary = GroupSummary(group: Group, members: set<MemberView>, pinCount: nat)
  datatype PrefectureCount = PrefectureCount(prefecture: string, count: nat)

  function ViewOf(u: User): (v: UserView)
    ensures v.id == u.id && v.email == u.email && v.name == u.name
  {
    UserView(u.id, u.email, u.name)
  }

  // ---------------------------------------------------------------- memberships

  /** The membership keys of group `g`: what `group.members` holds. */
  function MemberKeys(members: Members, g: string): set<(string, string)>
  {
    set k | k in members && k.1 == g
  }

  /** `group.members.some(m => m.userId === u)`, the pin routes' membership test. */
  predicate HasMember(members: Members, u: string, g: string)
  {
    exists k :: k in members && k.1 == g && members[k].userId == u
  }

  function MembersView(users: Users, members: Members, g: string): set<MemberView>
  {
    set k | k in members && k.1 == g && k.0 in users :: MemberView(members[k], ViewOf(users[k.0]))
  }

  function GroupViewOf(users: Users, groups: Groups, members: Members, g: string): GroupView
    requires g in groups
  {
    GroupView(groups[g], MembersView(users, members, g))
  }

  // ---------------------------------------------------------------- unique lookups

  /** `user.findUnique({ where: { email } })`: the id of the user with that email. */
  function UserByEmail(users: Users, email: string): (r: Option<string>)
    requires UsersWellFormed(users)
    ensures r.None? <==> forall id :: id in users ==> users[id].email != email
    ensures r.Some? ==> r.value in users && users[r.value].email == email
  {
    if exists id :: id in users && users[id].email == email then
      Some(var id :| id in users && users[id].email == email; id)
    else None
  }

  /** `coupleGroup.findUnique({ where: { inviteCode } })`: the id of the group with that code. */
  function GroupByCode(groups: Groups, code: string): (r: Option<string>)
    requires GroupsWellFormed(groups)
    ensures r.None? <==> forall id :: id in groups ==> groups[id].inviteCode != code
    ensures r.Some? ==> r.value in groups && groups[r.value].inviteCode == code
  {
    if exists id :: id in groups && groups[id].inviteCode == code then
      Some(var id :| id in groups && groups[id].inviteCode == code; id)
    else None
  }

  // ---------------------------------------------------------------- pin rows

  predicate DistinctIds(pins: seq<Pin>)
  {
    forall i, j :: 0 <= i < j < |pins| ==> pins[i].id != pins[j].id
  }

  /** `placePin.findUnique({ where: { id } })`: the row holding `id`, if any. */
  function FindPin(pins: seq<Pin>, id: string): (r: Option<nat>)
    ensures r.Some? ==> r.value < |pins| && pins[r.value].id == id
    ensures r.None? <==> forall i :: 0 <= i < |pins| ==> pins[i].id != id
  {
    if |pins| == 0 then None
    else if pins[|pins| - 1].id == id then Some(|pins| - 1)
    else FindPin(pins[..|pins| - 1], id)
  }

  /** The rows of group `g`, in table order (`where: { groupId }`). */
  function PinsOfGroup(pins: seq<Pin>, g: string): (r: seq<Pin>)
    ensures forall p :: p in r <==> p in pins && p.groupId == g
    ensures |r| <= |pins|
    ensures DistinctIds(pins) ==> DistinctIds(r)
  {
    if |pins| == 0 then []
    else
      var init := pins[..|pins| - 1];
      var last := pins[|pins| - 1];
      var rest := PinsOfGroup(init, g);
      assert pins == init + [last];
      assert DistinctIds(pins) ==> DistinctIds(init) && forall p :: p in init ==> p.id != last.id by {
        if DistinctIds(pins) {
          forall p | p in init ensures p.id != last.id {
            var i :| 0 <= i < |init| && init[i] == p;
            assert pins[i] == p;
          }
        }
      }
      if last.groupId == g then rest + [last] else rest
  }

  // ---------------------------------------------------------------- invariant

  ghost predicate UsersWellFormed(users: Users)
  {
    (forall id :: id in users ==> users[id].id == id) &&
    (forall a, b :: a in users && b in users && users[a].email == users[b].email ==> a == b)
  }

  ghost predicate GroupsWellFormed(groups: Groups)
  {
    (forall id :: id in groups ==> groups[id].id == id) &&
    (forall a, b :: a in groups && b in groups && groups[a].inviteCode == groups[b].inviteCode ==> a == b)
  }

  ghost predicate MembersWellFormed(users: Users, groups: Groups, members: Members)
  {
    (forall k :: k in members ==> members[k].userId == k.0 && members[k].groupId == k.1 && k.0 in users && k.1 in groups) &&
    (forall g :: g in groups ==> |MemberKeys(members, g)| <= MaxGroupMembers)
  }

  ghost predicate PinsWellFormed(users: Users, groups: Groups, pins: seq<Pin>)
  {
    DistinctIds(pins) &&
    forall i :: 0 <= i < |pins| ==> pins[i].groupId in groups && pins[i].createdById in users
  }

  /**
   * Ids are the keys, emails and invite codes are unique, every membership and pin refers to an
   * existing user and group, and no group has more than two members.
   */
  ghost predicate Consistent(users: Users, groups: Groups, members: Members, pins: seq<Pin>)
  {
    UsersWellFormed(users) && GroupsWellFormed(groups) &&
    MembersWellFormed(users, groups, members) && PinsWellFormed(users, groups, pins)
  }

  class Database {
    var users: Users
    var groups: Groups
    var members: Members
    var pins: seq<Pin>

    ghost predicate Valid()
      reads this
    {
      Consistent(users, groups, members, pins)
    }

    constructor ()
      ensures Valid()
      ensures users == map[] && groups == map[] && members == map[] && pins == []
    {
      users, groups, members, pins := map[], map[], map[], [];
    }
  }

  /** On a consistent store the two membership tests (composite-key lookup and `.some` over the group's members) agree. */
  lemma HasMemberIsKeyLookup(users: Users, groups: Groups, members: Members, u: string, g: string)
    requires MembersWellFormed(users, groups, members)
    ensures HasMember(members, u, g) <==> (u, g) in members
  {
    if (u, g) in members {
      assert members[(u, g)].userId == u;
    }
  }

  // ---------------------------------------------------------------- preservation

  /** Registering a user with a fresh id and an unused email keeps the store consistent. */
  lemma AddUserPreserves(users: Users, groups: Groups, members: Members, pins: seq<Pin>, u: User)
    requires Consistent(users, groups, members, pins)
    requires u.id !in users
    requires forall id :: id in users ==> users[id].email != u.email
    ensures Consistent(users[u.id := u], groups, members, pins)
  {
  }

  /** Creating a group with a fresh id and unused code, its creator as the only (admin) member, keeps the store consistent. */
  lemma AddGroupPreserves(users: Users, groups: Groups, members: Members, pins: seq<Pin>, gr: Group, u: string)
    requires Consistent(users, groups, members, pins)
    requires gr.id !in groups && u in users
    requires forall id :: id in groups ==> groups[id].inviteCode != gr.inviteCode
    ensures Consistent(users, groups[gr.id := gr], members[(u, gr.id) := Membership(u, gr.id, AdminRole)], pins)
    ensures MemberKeys(members[(u, gr.id) := Membership(u, gr.id, AdminRole)], gr.id) == {(u, gr.id)}
  {
    var groups' := groups[gr.id := gr];
    var members' := members[(u, gr.id) := Membership(u, gr.id, AdminRole)];
    assert MemberKeys(members', gr.id) == {(u, gr.id)};
    forall g | g in groups' && g != gr.id
      ensures MemberKeys(members', g) == MemberKeys(members, g)
    {
    }
  }

  /** Adding a membership to a group that has fewer than two members and lacks this user keeps the store consistent. */
  lemma JoinPreserves(users: Users, groups: Groups, members: Members, pins: seq<Pin>, u: string, g: string)
    requires Consistent(users, groups, members, pins)
    requires u in users && g in groups && (u, g) !in members
    requires |MemberKeys(members, g)| < MaxGroupMembers
    ensures Consistent(users, groups, members[(u, g) := Membership(u, g, MemberRole)], pins)
    ensures |MemberKeys(members[(u, g) := Membership(u, g, MemberRole)], g)| == |MemberKeys(members, g)| + 1
  {
    var members' := members[(u, g) := Membership(u, g, MemberRole)];
    var before := MemberKeys(members, g);
    assert MemberKeys(members', g) == before + {(u, g)};
    assert (u, g) !in before;
    assert |before + {(u, g)}| == |before| + 1;
    forall h | h in groups
      ensures |MemberKeys(members', h)| <= MaxGroupMembers
    {
      if h != g {
        assert MemberKeys(members', h) == MemberKeys(members, h);
      }
    }
    assert MembersWellFormed(users, groups, members');
  }

  /** Appending a pin with a fresh id, an existing group and an existing author keeps the store consistent. */
  lemma AddPinPreserves(users: Users, groups: Groups, members: Members, pins: seq<Pin>, p: Pin)
    requires Consistent(users, groups, members, pins)
    requires FindPin(pins, p.id).None?
    requires p.groupId in groups && p.createdById in users
    ensures Consistent(users, groups, members, pins + [p])
  {
  }

  /** Rewriting a row in place, keeping its id, group and author, keeps the store consistent. */
  lemma ReplacePinPreserves(users: Users, groups: Groups, members: Members, pins: seq<Pin>, i: nat, p: Pin)
    requires Consistent(users, groups, members, pins)
    requires i < |pins| && p.id == pins[i].id && p.groupId == pins[i].groupId && p.createdById == pins[i].createdById
    ensures Consistent(users, groups, members, pins[i := p])
  {
  }

  /** Removing a row keeps the store consistent. */
  lemma RemovePinPreserves(users: Users, groups: Groups, members: Members, pins: seq<Pin>, i: nat)
    requires Consistent(users, groups, members, pins)
    requires i < |pins|
    ensures Consistent(users, groups, members, pins[..i] + pins[i + 1..])
  {
    var rest := pins[..i] + pins[i + 1..];
    forall a, b | 0 <= a < b < |rest| ensures rest[a].id != rest[b].id {
      var a' := if a < i then a else a + 1;
      var b' := if b < i then b else b + 1;
      assert rest[a] == pins[a'] && rest[b] == pins[b'];
    }
    forall a | 0 <= a < |rest| ensures rest[a].groupId in groups && rest[a].createdById in users {
      assert rest[a] == pins[if a < i then a else a + 1];
    }
  }
}
