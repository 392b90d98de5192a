/**
 * The server's route table: the three route groups mounted under `/auth`, `/groups` and `/pins`,
 * and the method and path pattern each handler is declared with. A path is matched segment by
 * segment, as Hono does; a `:param` segment matches any non-empty segment.
 */
module Router {
  import opened Wrappers
  import opened Text

  datatype Route =
    | LoginRoute
    | RegisterRoute
    | LogoutRoute
    | MeRoute
    | CreateGroupRoute
    | JoinGroupRoute
    | ListGroupsRoute
    | GroupStatsRoute(groupId: string)
    | CreatePinRoute
    | ListPinsRoute(groupId: string)
    | GetPinRoute(pinId: string)
    | UpdatePinRoute(pinId: string)
    | DeletePinRoute(pinId: string)

  /** The HTTP method a route is declared with. */
  function MethodOf(r: Route): string
  {
    match r
    case LoginRoute => "POST"
    case RegisterRoute => "POST"
    case LogoutRoute => "POST"
    case MeRoute => "GET"
    case CreateGroupRoute => "POST"
    case JoinGroupRoute => "POST"
    case ListGroupsRoute => "GET"
    case GroupStatsRoute(_) => "GET"
    case CreatePinRoute => "POST"
    case ListPinsRoute(_) => "GET"
    case GetPinRoute(_) => "GET"
    case UpdatePinRoute(_) => "PUT"
    case DeletePinRoute(_) => "DELETE"
  }

  /**
   * The path a route answers, its parameter filled in: the mount prefix followed by the route's
   * own path, written segment by segment (`"/" + "pins" + "/" + p` is `/pins/${p}`).
   */
  function PathOf(r: Route): string
  {
    match r
    case LoginRoute => "/" + "auth" + "/" + "login"
    case RegisterRoute => "/" + "auth" + "/" + "register"
    case LogoutRoute => "/" + "auth" + "/" + "logout"
    case MeRoute => "/" + "auth" + "/" + "me"
    case CreateGroupRoute => "/" + "groups"
    case JoinGroupRoute => "/" + "groups" + "/" + "join"
    case ListGroupsRoute => "/" + "groups"
    case GroupStatsRoute(g) => "/" + "groups" + "/" + g + "/" + "prefecture-stats"
    case CreatePinRoute => "/" + "pins"
    case ListPinsRoute(g) => "/" + "pins" + "/" + "group" + "/" + g
    case GetPinRoute(p) => "/" + "pins" + "/" + p
    case UpdatePinRoute(p) => "/" + "pins" + "/" + p
    case DeletePinRoute(p) => "/" + "pins" + "/" + p
  }

  /** A route's parameter is one segment: non-empty and without `/`. */
  predicate IsSegment(s: string)
  {
    s != "" && '/' !in s
  }

  predicate ParamOk(r: Route)
  {
    match r
    case GroupStatsRoute(g) => IsSegment(g)
    case ListPinsRoute(g) => IsSegment(g)
    case GetPinRoute(p) => IsSegment(p)
    case UpdatePinRoute(p) => IsSegment(p)
    case DeletePinRoute(p) => IsSegment(p)
    case _ => true
  }

  /** The route matched by the segments of a path under one of the three mounts, if any. */
  function Match(m: string, s: seq<string>): Option<Route>
    requires |s| >= 2
  {
    if s[1] == "auth" then
      if |s| != 3 then None
      else if m == "POST" && s[2] == "login" then Some(LoginRoute)
      else if m == "POST" && s[2] == "register" then Some(RegisterRoute)
      else if m == "POST" && s[2] == "logout" then Some(LogoutRoute)
      else if m == "GET" && s[2] == "me" then Some(MeRoute)
      else None
    else if s[1] == "groups" then
      if |s| == 2 then
        if m == "POST" then Some(CreateGroupRoute) else if m == "GET" then Some(ListGroupsRoute) else None
      else if |s| == 3 && m == "POST" && s[2] == "join" then Some(JoinGroupRoute)
      else if |s| == 4 && m == "GET" && s[2] != "" && s[3] == "prefecture-stats" then Some(GroupStatsRoute(s[2]))
      else None
    else if s[1] == "pins" then
      if |s| == 2 then
        if m == "POST" then Some(CreatePinRoute) else None
      else if |s| == 4 && m == "GET" && s[2] == "group" && s[3] != "" then Some(ListPinsRoute(s[3]))
      else if |s| == 3 && s[2] != "" then
        if m == "GET" then Some(GetPinRoute(s[2]))
        else if m == "PUT" then Some(UpdatePinRoute(s[2]))
        else if m == "DELETE" then Some(DeletePinRoute(s[2]))
        else None
      else None
    else None
  }

  /** The handler a request reaches: whatever it reaches is the route declared with exactly that method and path. */
  function Dispatch(m: string, path: string): (r: Option<Route>)
    ensures r.Some? ==> MethodOf(r.value) == m && PathOf(r.value) == path
  {
    var s := Split(path, '/');
    if |s| < 2 || s[0] != "" then None
    else
      var r := Match(m, s);
      if r.Some? then
        MatchedPath(m, s);
        r
      else r
  }

  /** `Join` of a path's segments, the first being the empty piece before the leading `/`. */
  lemma JoinPath2(b: string)
    ensures Join(["", b], '/') == "/" + b
  {
    assert ["", b][1..] == [b];
    assert Join([b], '/') == b;
    assert "" + ['/'] + b == "/" + b;
  }

  lemma JoinPath3(b: string, c: string)
    ensures Join(["", b, c], '/') == "/" + b + "/" + c
  {
    assert ["", b, c][1..] == [b, c];
    assert [b, c][1..] == [c];
    assert Join([c], '/') == c;
    assert Join(["", b, c], '/') == "" + ['/'] + (b + ['/'] + c);
  }

  lemma JoinPath4(b: string, c: string, d: string)
    ensures Join(["", b, c, d], '/') == "/" + b + "/" + c + "/" + d
  {
    assert ["", b, c, d][1..] == [b, c, d];
    JoinPath3(c, d);
    assert [b, c, d][1..] == [c, d];
    assert Join([c, d], '/') == c + ['/'] + d by {
      assert [c, d][1..] == [d];
      assert Join([d], '/') == d;
    }
    assert Join(["", b, c, d], '/') == "" + ['/'] + (b + ['/'] + (c + ['/'] + d));
  }

  /** The matched route's segments are the path's segments, so gluing them back gives the route's path. */
  lemma MatchedPath(m: string, s: seq<string>)
    requires |s| >= 2 && s[0] == ""
    requires Match(m, s).Some?
    ensures MethodOf(Match(m, s).value) == m && PathOf(Match(m, s).value) == Join(s, '/')
  {
    if s[1] == "auth" {
      MatchedAuth(m, s);
    } else if s[1] == "groups" {
      MatchedGroups(m, s);
    } else {
      MatchedPins(m, s);
    }
    JoinSegmentsOf(Match(m, s).value);
  }

  lemma MatchedAuth(m: string, s: seq<string>)
    requires |s| >= 2 && s[0] == "" && s[1] == "auth"
    requires Match(m, s).Some?
    ensures MethodOf(Match(m, s).value) == m && s == SegmentsOf(Match(m, s).value)
  {
    assert s == ["", "auth", s[2]];
  }

  lemma MatchedGroups(m: string, s: seq<string>)
    requires |s| >= 2 && s[0] == "" && s[1] == "groups"
    requires Match(m, s).Some?
    ensures MethodOf(Match(m, s).value) == m && s == SegmentsOf(Match(m, s).value)
  {
    if |s| == 2 {
      assert s == ["", "groups"];
    } else if |s| == 3 {
      assert s == ["", "groups", s[2]];
    } else {
      assert s == ["", "groups", s[2], s[3]];
    }
  }

  lemma MatchedPins(m: string, s: seq<string>)
    requires |s| >= 2 && s[0] == "" && s[1] != "auth" && s[1] != "groups"
    requires Match(m, s).Some?
    ensures MethodOf(Match(m, s).value) == m && s == SegmentsOf(Match(m, s).value)
  {
    if |s| == 2 {
      assert s == ["", "pins"];
    } else if |s| == 3 {
      assert s == ["", "pins", s[2]];
    } else {
      assert s == ["", "pins", s[2], s[3]];
    }
  }

  /** Every declared route is reached by its own method and path, when its parameter is one segment. */
  lemma DispatchReachesRoute(r: Route)
    requires ParamOk(r)
    ensures Dispatch(MethodOf(r), PathOf(r)) == Some(r)
  {
    var s := SegmentsOf(r);
    JoinSegmentsOf(r);
    SegmentsHaveNoSlash(r);
    SplitJoin(s, '/');
    MatchSegmentsOf(r);
  }

  lemma SegmentsHaveNoSlash(r: Route)
    requires ParamOk(r)
    ensures |SegmentsOf(r)| >= 2 && forall i :: 0 <= i < |SegmentsOf(r)| ==> '/' !in SegmentsOf(r)[i]
  {
    assert '/' !in "" && '/' !in "auth" && '/' !in "groups" && '/' !in "pins";
    assert '/' !in "login" && '/' !in "register" && '/' !in "logout" && '/' !in "me";
    assert '/' !in "join" && '/' !in "prefecture-stats" && '/' !in "group";
  }

  lemma MatchSegmentsOf(r: Route)
    requires ParamOk(r)
    ensures |SegmentsOf(r)| >= 2 && Match(MethodOf(r), SegmentsOf(r)) == Some(r)
  {
  }

  /** The segments of a route's path; the first is the empty piece before the leading `/`. */
  function SegmentsOf(r: Route): seq<string>
  {
    match r
    case LoginRoute => ["", "auth", "login"]
    case RegisterRoute => ["", "auth", "register"]
    case LogoutRoute => ["", "auth", "logout"]
    case MeRoute => ["", "auth", "me"]
    case CreateGroupRoute => ["", "groups"]
    case JoinGroupRoute => ["", "groups", "join"]
    case ListGroupsRoute => ["", "groups"]
    case GroupStatsRoute(g) => ["", "groups", g, "prefecture-stats"]
    case CreatePinRoute => ["", "pins"]
    case ListPinsRoute(g) => ["", "pins", "group", g]
    case GetPinRoute(p) => ["", "pins", p]
    case UpdatePinRoute(p) => ["", "pins", p]
    case DeletePinRoute(p) => ["", "pins", p]
  }

  lemma JoinSegmentsOf(r: Route)
    ensures Join(SegmentsOf(r), '/') == PathOf(r)
  {
    if r.LoginRoute? || r.RegisterRoute? || r.LogoutRoute? || r.MeRoute? {
      JoinAuthSegments(r);
    } else if r.CreateGroupRoute? || r.JoinGroupRoute? || r.ListGroupsRoute? || r.GroupStatsRoute? {
      JoinGroupSegments(r);
    } else {
      JoinPinSegments(r);
    }
  }

  lemma JoinAuthSegments(r: Route)
    requires r.LoginRoute? || r.RegisterRoute? || r.LogoutRoute? || r.MeRoute?
    ensures Join(SegmentsOf(r), '/') == PathOf(r)
  {
    match r
    case LoginRoute => JoinPath3("auth", "login");
    case RegisterRoute => JoinPath3("auth", "register");
    case LogoutRoute => JoinPath3("auth", "logout");
    case MeRoute => JoinPath3("auth", "me");
  }

  lemma JoinGroupSegments(r: Route)
    requires r.CreateGroupRoute? || r.JoinGroupRoute? || r.ListGroupsRoute? || r.GroupStatsRoute?
    ensures Join(SegmentsOf(r), '/') == PathOf(r)
  {
    match r
    case CreateGroupRoute => JoinPath2("groups");
    case JoinGroupRoute => JoinPath3("groups", "join");
    case ListGroupsRoute => JoinPath2("groups");
    case GroupStatsRoute(g) => JoinPath4("groups", g, "prefecture-stats");
  }

  lemma JoinPinSegments(r: Route)
    requires r.CreatePinRoute? || r.ListPinsRoute? || r.GetPinRoute? || r.UpdatePinRoute? || r.DeletePinRoute?
    ensures Join(SegmentsOf(r), '/') == PathOf(r)
  {
    match r
    case CreatePinRoute => JoinPath2("pins");
    case ListPinsRoute(g) => JoinPath4("pins", "group", g);
    case GetPinRoute(p) => JoinPath3("pins", p);
    case UpdatePinRoute(p) => JoinPath3("pins", p);
    case DeletePinRoute(p) => JoinPath3("pins", p);
  }
}
