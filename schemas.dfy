/**
 * The shared request schemas (zod objects) as parsers from a JSON body to a typed
 * request. A parser yields `None` exactly where zod's `safeParse` fails; undeclared
 * keys are stripped, as zod objects do by default. `.optional()` admits an absent
 * key but not `null`. String lengths are JavaScript lengths (UTF-16 code units).
 */
module Schemas {
  import opened Wrappers
  import opened Text
  import opened Json

  const MinPasswordLength := 6

  // ---------------------------------------------------------------- string formats

  predicate IsAsciiLetter(c: char) { 'a' <= c <= 'z' || 'A' <= c <= 'Z' }
  predicate IsAsciiDigit(c: char) { '0' <= c <= '9' }
  predicate IsAsciiAlnum(c: char) { IsAsciiLetter(c) || IsAsciiDigit(c) }

  /** A character of `[A-Z0-9_'+\-.]` (case-insensitive). */
  predicate IsLocalChar(c: char) { IsAsciiAlnum(c) || c == '_' || c == '\'' || c == '+' || c == '-' || c == '.' }

  /** The local part: `[A-Z0-9_'+\-.]*[A-Z0-9_+-]`. */
  predicate IsLocalPart(s: string)
  {
    |s| >= 1 && (forall i :: 0 <= i < |s| ==> IsLocalChar(s[i])) &&
    (IsAsciiAlnum(s[|s| - 1]) || s[|s| - 1] == '_' || s[|s| - 1] == '+' || s[|s| - 1] == '-')
  }

  /** A domain label before a dot: `[A-Z0-9][A-Z0-9\-]*`. */
  predicate IsLabel(s: string)
  {
    |s| >= 1 && IsAsciiAlnum(s[0]) && forall i :: 0 <= i < |s| ==> IsAsciiAlnum(s[i]) || s[i] == '-'
  }

  /** The domain: `([A-Z0-9][A-Z0-9\-]*\.)+[A-Z]{2,}`. */
  predicate IsDomain(s: string)
  {
    var labels := Split(s, '.');
    |labels| >= 2 &&
    (forall i :: 0 <= i < |labels| - 1 ==> IsLabel(labels[i])) &&
    var tld := labels[|labels| - 1];
    |tld| >= 2 && forall i :: 0 <= i < |tld| ==> IsAsciiLetter(tld[i])
  }

  /**
   * zod's `.email()` pattern (zod 3.23 and later):
   * `^(?!\.)(?!.*\.\.)([A-Z0-9_'+\-\.]*)[A-Z0-9_+-]@([A-Z0-9][A-Z0-9\-]*\.)+[A-Z]{2,}$`, case-insensitive.
   * Neither side may contain `@`, so the address splits at its only `@`.
   */
  predicate IsEmail(s: string)
  {
    var halves := Split(s, '@');
    |halves| == 2 && IsLocalPart(halves[0]) && IsDomain(halves[1]) &&
    s[0] != '.' && !Includes(s, "..")
  }

  /** Every accepted address has exactly one `@`, with a non-empty side on each. */
  lemma EmailShape(s: string)
    requires IsEmail(s)
    ensures Occurrences(s, '@') == 1
    ensures exists i :: 0 < i < |s| - 1 && s[i] == '@'
  {
    var halves := Split(s, '@');
    assert Join(halves, '@') == halves[0] + ['@'] + halves[1];
    var i := |halves[0]|;
    assert s[i] == '@';
  }

  /** `\d+` on `s[lo..hi]`: at least one character, all of them digits. */
  predicate DigitsIn(s: string, lo: nat, hi: nat)
    requires hi <= |s|
  {
    lo < hi && forall k :: lo <= k < hi ==> IsAsciiDigit(s[k])
  }

  /** `\d\d` at `s[i..i + 2]`. */
  predicate TwoDigitsAt(s: string, i: nat)
    requires i + 1 < |s|
  {
    IsAsciiDigit(s[i]) && IsAsciiDigit(s[i + 1])
  }

  /** The value of the two-digit numeral at `s[i..i + 2]`. */
  function TwoDigits(s: string, i: nat): int
    requires i + 1 < |s|
  {
    10 * (s[i] as int - '0' as int) + (s[i + 1] as int - '0' as int)
  }

  /**
   * The leap years of the date pattern's `-02-29` branch: the last two digits a non-zero multiple of
   * four, or `00` after a multiple of four.
   */
  predicate IsLeapYear(y: int) { y % 4 == 0 && (y % 100 != 0 || y % 400 == 0) }

  function DaysInMonth(y: int, m: int): int
  {
    if m == 2 then (if IsLeapYear(y) then 29 else 28)
    else if m == 4 || m == 6 || m == 9 || m == 11 then 30
    else 31
  }

  /**
   * zod's `.datetime()` with default options (zod 3.23 and later): `YYYY-MM-DDTHH:MM:SS(.fraction)?Z`,
   * a UTC timestamp with optional fractional seconds and no offset. The month is 01-12, the day
   * 01 up to the month's length (29 February only in leap years), the hour 00-23 and the minutes
   * and seconds 00-59.
   */
  predicate IsDatetime(s: string)
  {
    |s| >= 20 &&
    TwoDigitsAt(s, 0) && TwoDigitsAt(s, 2) && s[4] == '-' && TwoDigitsAt(s, 5) && s[7] == '-' && TwoDigitsAt(s, 8) &&
    s[10] == 'T' && TwoDigitsAt(s, 11) && s[13] == ':' && TwoDigitsAt(s, 14) && s[16] == ':' &&
    TwoDigitsAt(s, 17) && s[|s| - 1] == 'Z' &&
    (|s| == 20 || (s[19] == '.' && DigitsIn(s, 20, |s| - 1))) &&
    var year, month, day := 100 * TwoDigits(s, 0) + TwoDigits(s, 2), TwoDigits(s, 5), TwoDigits(s, 8);
    1 <= month <= 12 && 1 <= day <= DaysInMonth(year, month) &&
    TwoDigits(s, 11) <= 23 && TwoDigits(s, 14) <= 59 && TwoDigits(s, 17) <= 59
  }

  /** A leap day at the last second of the day, with a fraction, is a datetime. */
  lemma LeapDayAccepted()
    ensures IsDatetime("2024-02-29T23:59:59.5Z")
  {
    var a := "2024-02-29T23:59:59.5Z";
    assert |a| == 22 && a[4] == '-' && a[7] == '-' && a[10] == 'T' && a[13] == ':' && a[16] == ':' && a[19] == '.' && a[21] == 'Z';
    assert DigitsIn(a, 20, 21);
    assert a[0] == '2' && a[1] == '0' && a[2] == '2' && a[3] == '4' && a[5] == '0' && a[6] == '2' && a[8] == '2' && a[9] == '9';
    assert a[11] == '2' && a[12] == '3' && a[14] == '5' && a[15] == '9' && a[17] == '5' && a[18] == '9';
    assert TwoDigits(a, 0) == 20 && TwoDigits(a, 2) == 24 && TwoDigits(a, 5) == 2 && TwoDigits(a, 8) == 29;
    assert TwoDigits(a, 11) == 23 && TwoDigits(a, 14) == 59 && TwoDigits(a, 17) == 59;
    assert DaysInMonth(2024, 2) == 29;
  }

  /** Impossible dates are refused: month 13, 31 April, and 29 February outside a leap year. */
  lemma OutOfRangeDateRefused()
    ensures !IsDatetime("2023-02-29T12:00:00Z")
    ensures !IsDatetime("2024-13-45T25:61:61Z")
    ensures !IsDatetime("2024-04-31T12:00:00Z")
  {
  }

  /** Impossible times are refused: hour 24 and minute 60. */
  lemma OutOfRangeTimeRefused()
    ensures !IsDatetime("2024-01-01T24:00:00Z")
    ensures !IsDatetime("2024-01-01T12:60:00Z")
  {
  }

  // ---------------------------------------------------------------- field readers

  /** `body[key]` holds exactly `v`: the string when `v` is present, nothing when it is absent. */
  predicate HoldsText(body: Json, key: string, v: Option<string>)
  {
    Field(body, key) == (if v.Some? then Some(JString(v.value)) else None)
  }

  /** `body[key]` holds exactly the optional number `v`. */
  predicate HoldsNumber(body: Json, key: string, v: Option<real>)
  {
    Field(body, key) == (if v.Some? then Some(JNumber(v.value)) else None)
  }

  /** `z.string().min(min)` on a required key: the string, when it is present, a string, and long enough. */
  function RequiredText(body: Json, key: string, min: nat): (r: Option<string>)
    ensures r.Some? ==> Field(body, key) == Some(JString(r.value)) && Utf16Length(r.value) >= min
    ensures r.None? ==> forall s :: Field(body, key) == Some(JString(s)) ==> Utf16Length(s) < min
  {
    match StringField(body, key)
    case Some(s) => if Utf16Length(s) >= min then Some(s) else None
    case None => None
  }

  /**
   * An optional key: `Some(None)` when it is absent, `Some(Some(s))` when it is a string that
   * `ok` accepts, and `None` (a failed parse) otherwise, including for `null`.
   */
  function OptionalText(body: Json, key: string, min: nat, datetime: bool): (r: Option<Option<string>>)
    ensures r == Some(None) <==> Field(body, key).None?
    ensures forall s :: r == Some(Some(s)) <==>
      (Field(body, key) == Some(JString(s)) && Utf16Length(s) >= min && (datetime ==> IsDatetime(s)))
  {
    match Field(body, key)
    case None => Some(None)
    case Some(JString(s)) => if Utf16Length(s) >= min && (datetime ==> IsDatetime(s)) then Some(Some(s)) else None
    case Some(_) => None
  }

  /** `z.number().min(lo).max(hi)` on a required key (both bounds inclusive). */
  function RequiredNumber(body: Json, key: string, lo: real, hi: real): (r: Option<real>)
    ensures r.Some? ==> Field(body, key) == Some(JNumber(r.value)) && lo <= r.value <= hi
    ensures r.None? ==> forall n :: Field(body, key) == Some(JNumber(n)) ==> n < lo || hi < n
  {
    match Field(body, key)
    case Some(JNumber(n)) => if lo <= n <= hi then Some(n) else None
    case _ => None
  }

  /** The same number check on an optional key. */
  function OptionalNumber(body: Json, key: string, lo: real, hi: real): (r: Option<Option<real>>)
    ensures r == Some(None) <==> Field(body, key).None?
    ensures forall n :: r == Some(Some(n)) <==> (Field(body, key) == Some(JNumber(n)) && lo <= n <= hi)
  {
    match Field(body, key)
    case None => Some(None)
    case Some(JNumber(n)) => if lo <= n <= hi then Some(Some(n)) else None
    case Some(_) => None
  }

  // ---------------------------------------------------------------- auth schemas

  datatype LoginRequest = LoginRequest(email: string, password: string)
  datatype RegisterRequest = RegisterRequest(email: string, name: Option<string>, password: string)

  /** `loginSchema`: a valid email and a password of at least six characters; nothing else is kept. */
  function ParseLogin(body: Json): (r: Option<LoginRequest>)
    ensures r.Some? ==> IsEmail(r.value.email) && Utf16Length(r.value.password) >= MinPasswordLength
    ensures r.Some? ==> (Field(body, "email") == Some(JString(r.value.email)) &&
      Field(body, "password") == Some(JString(r.value.password)))
    ensures forall e, p :: (Field(body, "email") == Some(JString(e)) && Field(body, "password") == Some(JString(p)) &&
      IsEmail(e) && Utf16Length(p) >= MinPasswordLength) ==> r == Some(LoginRequest(e, p))
  {
    match (StringField(body, "email"), RequiredText(body, "password", MinPasswordLength))
    case (Some(e), Some(p)) => if IsEmail(e) then Some(LoginRequest(e, p)) else None
    case _ => None
  }

  /** `registerSchema`: as login, plus an optional name that, when present, is a non-empty string. */
  function ParseRegister(body: Json): (r: Option<RegisterRequest>)
    ensures r.Some? ==> IsEmail(r.value.email) && Utf16Length(r.value.password) >= MinPasswordLength
    ensures r.Some? ==> (Field(body, "email") == Some(JString(r.value.email)) &&
      Field(body, "password") == Some(JString(r.value.password)))
    ensures r.Some? ==> match r.value.name
      case None => Field(body, "name").None?
      case Some(n) => Field(body, "name") == Some(JString(n)) && n != ""
  {
    match (StringField(body, "email"), OptionalText(body, "name", 1, false), RequiredText(body, "password", MinPasswordLength))
    case (Some(e), Some(n), Some(p)) => if IsEmail(e) then Some(RegisterRequest(e, n, p)) else None
    case _ => None
  }

  /** A present but empty name is refused, whatever the other fields hold. */
  lemma RegisterRejectsEmptyName(body: Json)
    requires Field(body, "name") == Some(JString(""))
    ensures ParseRegister(body).None?
  {
  }

  /** Every body the register schema accepts is also a valid login body for the same credentials. */
  lemma RegisterBodyIsLoginBody(body: Json)
    requires ParseRegister(body).Some?
    ensures ParseLogin(body) == Some(LoginRequest(ParseRegister(body).value.email, ParseRegister(body).value.password))
  {
  }

  /** Login reads only `email` and `password`: any other key, with any value, changes nothing. */
  lemma LoginIgnoresUndeclaredKeys(members: seq<(string, Json)>, k: string, v: Json)
    requires k != "email" && k != "password"
    ensures ParseLogin(JObject(members + [(k, v)])) == ParseLogin(JObject(members))
  {
    LookupOtherKey(members, k, v, "email");
    LookupOtherKey(members, k, v, "password");
  }

  // ---------------------------------------------------------------- group schemas

  datatype CreateGroupRequest = CreateGroupRequest(name: string, description: Option<string>)
  datatype JoinGroupRequest = JoinGroupRequest(inviteCode: string)

  /** `createGroupSchema`: a non-empty name and an optional description of any length (the empty one too). */
  function ParseCreateGroup(body: Json): (r: Option<CreateGroupRequest>)
    ensures r.Some? ==> Field(body, "name") == Some(JString(r.value.name)) && r.value.name != ""
    ensures r.Some? ==> HoldsText(body, "description", r.value.description)
    ensures forall n, d :: (Field(body, "name") == Some(JString(n)) && n != "" &&
      HoldsText(body, "description", d)) ==> r == Some(CreateGroupRequest(n, d))
  {
    match (RequiredText(body, "name", 1), OptionalText(body, "description", 0, false))
    case (Some(n), Some(d)) => Some(CreateGroupRequest(n, d))
    case _ => None
  }

  /** `joinGroupSchema`: a non-empty invite code. */
  function ParseJoinGroup(body: Json): (r: Option<JoinGroupRequest>)
    ensures r.Some? ==> Field(body, "inviteCode") == Some(JString(r.value.inviteCode)) && r.value.inviteCode != ""
    ensures forall c :: Field(body, "inviteCode") == Some(JString(c)) && c != "" ==> r == Some(JoinGroupRequest(c))
  {
    match RequiredText(body, "inviteCode", 1)
    case Some(c) => Some(JoinGroupRequest(c))
    case None => None
  }

  /** The shape `groupMemberSchema` declares: four strings, the role unconstrained. */
  datatype MemberRecord = MemberRecord(id: string, userId: string, groupId: string, role: string)

  function ParseGroupMember(j: Json): (r: Option<MemberRecord>)
    ensures r.Some? ==> (Field(j, "id") == Some(JString(r.value.id)) && Field(j, "userId") == Some(JString(r.value.userId)) &&
      Field(j, "groupId") == Some(JString(r.value.groupId)) && Field(j, "role") == Some(JString(r.value.role)))
    ensures forall i, u, g, role :: (Field(j, "id") == Some(JString(i)) && Field(j, "userId") == Some(JString(u)) &&
      Field(j, "groupId") == Some(JString(g)) && Field(j, "role") == Some(JString(role))) ==>
      r == Some(MemberRecord(i, u, g, role))
  {
    match (StringField(j, "id"), StringField(j, "userId"), StringField(j, "groupId"), StringField(j, "role"))
    case (Some(i), Some(u), Some(g), Some(role)) => Some(MemberRecord(i, u, g, role))
    case _ => None
  }

  /** Any string is an acceptable role, not only `admin` and `member`. */
  lemma AnyRoleAccepted(i: string, u: string, g: string, role: string)
    ensures ParseGroupMember(JObject([("id", JString(i)), ("userId", JString(u)), ("groupId", JString(g)), ("role", JString(role))]))
      == Some(MemberRecord(i, u, g, role))
  {
    var ms := [("id", JString(i)), ("userId", JString(u)), ("groupId", JString(g)), ("role", JString(role))];
    assert Lookup(ms, "role") == Some(JString(role));
    assert ms[..3][..2][..1] == [("id", JString(i))];
    assert Lookup(ms, "groupId") == Some(JString(g)) by { assert ms[..3][2] == ("groupId", JString(g)); }
    assert Lookup(ms, "userId") == Some(JString(u)) by { assert ms[..3][..2][1] == ("userId", JString(u)); }
    assert Lookup(ms, "id") == Some(JString(i)) by {
      assert ms[..3][..2][..1][0] == ("id", JString(i));
    }
  }

  // ---------------------------------------------------------------- pin schemas

  datatype CreatePinRequest = CreatePinRequest(
    title: string, description: Option<string>, latitude: real, longitude: real,
    prefecture: string, address: Option<string>, visitedAt: Option<string>)

  /** What `createPinSchema.partial()` yields: every field optional; it has no group or author field. */
  datatype PinPatch = PinPatch(
    title: Option<string>, description: Option<string>, latitude: Option<real>, longitude: Option<real>,
    prefecture: Option<string>, address: Option<string>, visitedAt: Option<string>)

  /** The constraints `createPinSchema` puts on the values it accepts. */
  predicate CreateConstraints(c: CreatePinRequest)
  {
    c.title != "" && c.prefecture != "" &&
    -90.0 <= c.latitude <= 90.0 && -180.0 <= c.longitude <= 180.0 &&
    (c.visitedAt.Some? ==> IsDatetime(c.visitedAt.value))
  }

  /** The body holds exactly the fields of `c`: the required ones present, the optional ones present iff set. */
  predicate CreateBodyHolds(body: Json, c: CreatePinRequest)
  {
    Field(body, "title") == Some(JString(c.title)) && HoldsText(body, "description", c.description) &&
    Field(body, "latitude") == Some(JNumber(c.latitude)) && Field(body, "longitude") == Some(JNumber(c.longitude)) &&
    Field(body, "prefecture") == Some(JString(c.prefecture)) && HoldsText(body, "address", c.address) &&
    HoldsText(body, "visitedAt", c.visitedAt)
  }

  /**
   * `createPinSchema`: what it accepts meets the constraints and is what the body holds; the
   * converse, that every such body is accepted, is `CreatePinComplete`.
   */
  function ParseCreatePin(body: Json): (r: Option<CreatePinRequest>)
    ensures r.Some? ==> CreateConstraints(r.value) && CreateBodyHolds(body, r.value)
  {
    var t, d := RequiredText(body, "title", 1), OptionalText(body, "description", 0, false);
    var lat, lon := RequiredNumber(body, "latitude", -90.0, 90.0), RequiredNumber(body, "longitude", -180.0, 180.0);
    var p, a := RequiredText(body, "prefecture", 1), OptionalText(body, "address", 0, false);
    var v := OptionalText(body, "visitedAt", 0, true);
    if t.Some? && d.Some? && lat.Some? && lon.Some? && p.Some? && a.Some? && v.Some? then
      Some(CreatePinRequest(t.value, d.value, lat.value, lon.value, p.value, a.value, v.value))
    else None
  }

  /** Each reader of the create schema returns the value a valid request says the body holds. */
  lemma CreateFieldRead(body: Json, c: CreatePinRequest)
    requires CreateConstraints(c) && CreateBodyHolds(body, c)
    ensures RequiredText(body, "title", 1) == Some(c.title)
    ensures OptionalText(body, "description", 0, false) == Some(c.description)
    ensures RequiredNumber(body, "latitude", -90.0, 90.0) == Some(c.latitude)
    ensures RequiredNumber(body, "longitude", -180.0, 180.0) == Some(c.longitude)
    ensures RequiredText(body, "prefecture", 1) == Some(c.prefecture)
    ensures OptionalText(body, "address", 0, false) == Some(c.address)
    ensures OptionalText(body, "visitedAt", 0, true) == Some(c.visitedAt)
  {
    assert HoldsText(body, "description", c.description);
    assert HoldsText(body, "address", c.address);
    assert HoldsText(body, "visitedAt", c.visitedAt);
  }

  /** Every body holding a request that meets the constraints is accepted, with that request. */
  lemma CreatePinComplete(body: Json, c: CreatePinRequest)
    requires CreateConstraints(c) && CreateBodyHolds(body, c)
    ensures ParseCreatePin(body) == Some(c)
  {
    CreateFieldRead(body, c);
  }

  /** The create constraints on the fields a patch sets. */
  predicate PatchConstraints(p: PinPatch)
  {
    (p.title.Some? ==> p.title.value != "") && (p.prefecture.Some? ==> p.prefecture.value != "") &&
    (p.latitude.Some? ==> -90.0 <= p.latitude.value <= 90.0) &&
    (p.longitude.Some? ==> -180.0 <= p.longitude.value <= 180.0) &&
    (p.visitedAt.Some? ==> IsDatetime(p.visitedAt.value))
  }

  /** The body holds exactly the fields a patch sets, and no other of the seven. */
  predicate PatchBodyHolds(body: Json, p: PinPatch)
  {
    HoldsText(body, "title", p.title) && HoldsText(body, "description", p.description) &&
    HoldsNumber(body, "latitude", p.latitude) && HoldsNumber(body, "longitude", p.longitude) &&
    HoldsText(body, "prefecture", p.prefecture) && HoldsText(body, "address", p.address) &&
    HoldsText(body, "visitedAt", p.visitedAt)
  }

  /**
   * `updatePinSchema` (`createPinSchema.partial()`): what it accepts is an object whose present
   * fields obey the create constraints, and the patch holds those values; the converse, that
   * every such object is accepted, is `UpdatePinComplete`.
   */
  function ParseUpdatePin(body: Json): (r: Option<PinPatch>)
    ensures r.Some? ==> body.JObject? && PatchConstraints(r.value) && PatchBodyHolds(body, r.value)
  {
    if !body.JObject? then None
    else
      var t, d := OptionalText(body, "title", 1, false), OptionalText(body, "description", 0, false);
      var lat, lon := OptionalNumber(body, "latitude", -90.0, 90.0), OptionalNumber(body, "longitude", -180.0, 180.0);
      var p, a := OptionalText(body, "prefecture", 1, false), OptionalText(body, "address", 0, false);
      var v := OptionalText(body, "visitedAt", 0, true);
      if t.Some? && d.Some? && lat.Some? && lon.Some? && p.Some? && a.Some? && v.Some? then
        Some(PinPatch(t.value, d.value, lat.value, lon.value, p.value, a.value, v.value))
      else None
  }

  /** Each optional reader of the update schema returns the value a valid patch says the body holds. */
  lemma PatchFieldRead(body: Json, p: PinPatch)
    requires PatchConstraints(p) && PatchBodyHolds(body, p)
    ensures OptionalText(body, "title", 1, false) == Some(p.title)
    ensures OptionalText(body, "description", 0, false) == Some(p.description)
    ensures OptionalNumber(body, "latitude", -90.0, 90.0) == Some(p.latitude)
    ensures OptionalNumber(body, "longitude", -180.0, 180.0) == Some(p.longitude)
    ensures OptionalText(body, "prefecture", 1, false) == Some(p.prefecture)
    ensures OptionalText(body, "address", 0, false) == Some(p.address)
    ensures OptionalText(body, "visitedAt", 0, true) == Some(p.visitedAt)
  {
    assert HoldsText(body, "title", p.title);
    assert HoldsNumber(body, "latitude", p.latitude);
    assert HoldsNumber(body, "longitude", p.longitude);
    assert HoldsText(body, "prefecture", p.prefecture);
    assert HoldsText(body, "visitedAt", p.visitedAt);
  }

  /** Every object holding a patch that meets the constraints is accepted, with that patch. */
  lemma UpdatePinComplete(body: Json, p: PinPatch)
    requires body.JObject? && PatchConstraints(p) && PatchBodyHolds(body, p)
    ensures ParseUpdatePin(body) == Some(p)
  {
    PatchFieldRead(body, p);
  }

  /** The patch that sets every field of a create request. */
  function PatchOf(c: CreatePinRequest): PinPatch
  {
    PinPatch(Some(c.title), c.description, Some(c.latitude), Some(c.longitude), Some(c.prefecture), c.address, c.visitedAt)
  }

  /** The update schema accepts every body the create schema accepts, with the same values. */
  lemma CreateBodyIsUpdateBody(body: Json)
    requires ParseCreatePin(body).Some?
    ensures ParseUpdatePin(body) == Some(PatchOf(ParseCreatePin(body).value))
  {
    var c := ParseCreatePin(body).value;
    assert body.JObject?;
    assert PatchConstraints(PatchOf(c)) && PatchBodyHolds(body, PatchOf(c));
    UpdatePinComplete(body, PatchOf(c));
  }

  /** The empty object is a valid update that sets nothing. */
  lemma EmptyUpdateAccepted()
    ensures ParseUpdatePin(JObject([])) == Some(PinPatch(None, None, None, None, None, None, None))
  {
  }

  /** A body that is not an object is refused by the update schema even though every field is optional. */
  lemma UpdateRejectsNonObject(body: Json)
    requires !body.JObject?
    ensures ParseUpdatePin(body).None?
  {
  }

  /** The shape `prefectureStatsSchema` declares. */
  function ParsePrefectureStats(j: Json): (r: Option<(string, real)>)
    ensures r.Some? ==> Field(j, "prefecture") == Some(JString(r.value.0)) && Field(j, "count") == Some(JNumber(r.value.1))
    ensures (Field(j, "prefecture").Some? && Field(j, "prefecture").value.JString? &&
             Field(j, "count").Some? && Field(j, "count").value.JNumber?) ==> r.Some?
  {
    match (StringField(j, "prefecture"), Field(j, "count"))
    case (Some(p), Some(JNumber(n))) => Some((p, n))
    case _ => None
  }
}
