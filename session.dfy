/**
 * The backend's authentication utilities: the signed session token, the email allow-list,
 * password hashing, invite codes and the session cookie.
 *
 * The token is `base64(JSON(payload)) + "." + hex(SHA-256(JSON(payload) + SECRET))`: a
 * secret-suffix digest, not an HMAC. JSON, base64, SHA-256 and bcrypt are foreign code; they
 * are parameters here, and `Lawful` collects the properties of them the proofs rely on.
 */
module Session {
  import opened Wrappers
  import opened Text
  import opened Json
  import opened Http

  /** `SessionData` from the shared types: what the token carries. */
  datatype SessionData = SessionData(userId: string, email: string)

  /** The JSON value `JSON.stringify` writes for a session. */
  function SessionJson(s: SessionData): (j: Json)
    ensures StringField(j, "userId") == Some(s.userId) && StringField(j, "email") == Some(s.email)
  {
    var ms := [("userId", JString(s.userId)), ("email", JString(s.email))];
    assert ms[..1] == [("userId", JString(s.userId))];
    assert Lookup(ms[..1], "email") == None;
    JObject(ms)
  }

  /** The foreign functions the token codec calls. */
  datatype Primitives = Primitives(
    /** `JSON.stringify` of a session payload. */
    stringify: SessionData -> string,
    /** `JSON.parse`; None when it throws. */
    parse: string -> Option<Json>,
    /** `Buffer.from(s).toString('base64')`: UTF-8 encoding, then base64. */
    toBase64: string -> string,
    /** `Buffer.from(s, 'base64').toString('utf-8')`: lenient, it never throws. */
    fromBase64: string -> string,
    /** `createHash('sha256').update(s).digest('hex')`. */
    sha256Hex: string -> string)

  predicate IsBase64Char(c: char)
  {
    ('A' <= c <= 'Z') || ('a' <= c <= 'z') || ('0' <= c <= '9') || c == '+' || c == '/' || c == '='
  }

  predicate IsLowerHexChar(c: char)
  {
    ('0' <= c <= '9') || ('a' <= c <= 'f')
  }

  /** What JSON, base64 and SHA-256 guarantee and the codec relies on. */
  ghost predicate Lawful(p: Primitives)
  {
    (forall s :: p.parse(p.stringify(s)) == Some(SessionJson(s))) &&
    (forall t :: p.fromBase64(p.toBase64(t)) == t) &&
    (forall t :: forall i :: 0 <= i < |p.toBase64(t)| ==> IsBase64Char(p.toBase64(t)[i])) &&
    (forall t :: |p.sha256Hex(t)| == 64 && forall i :: 0 <= i < 64 ==> IsLowerHexChar(p.sha256Hex(t)[i]))
  }

  /** The environment variables the utilities read. */
  datatype Env = Env(jwtSecret: Option<string>, allowedEmails: Option<string>, nodeEnv: Option<string>)

  const DefaultSecret := "default-secret-key"

  /** `process.env.JWT_SECRET || 'default-secret-key'`: an unset or empty variable gives the default. */
  function SessionSecret(env: Env): (secret: string)
    ensures secret == DefaultSecret <==> env.jwtSecret.None? || env.jwtSecret.value in {"", DefaultSecret}
    ensures secret != DefaultSecret ==> env.jwtSecret == Some(secret)
  {
    if env.jwtSecret.Some? && env.jwtSecret.value != "" then env.jwtSecret.value else DefaultSecret
  }

  // ---------------------------------------------------------------- token codec

  function Signature(p: Primitives, payload: string, secret: string): string
  {
    p.sha256Hex(payload + secret)
  }

  function CreateSessionToken(p: Primitives, secret: string, s: SessionData): string
  {
    var payload := p.stringify(s);
    p.toBase64(payload) + "." + Signature(p, payload, secret)
  }

  /**
   * Splits on '.', takes the first two pieces, decodes the first and compares the second with
   * the digest of the decoded payload; a mismatch or a parse failure gives None. A token without
   * '.' has no second piece, and `undefined` never equals the digest.
   */
  function VerifySessionToken(p: Primitives, secret: string, token: string): (r: Option<Json>)
    ensures r.Some? ==> '.' in token
  {
    var parts := Split(token, '.');
    var payload := p.fromBase64(parts[0]);
    var signature := if |parts| > 1 then Some(parts[1]) else None;
    if signature != Some(Signature(p, payload, secret)) then None
    else
      OccurrencesZero(token, '.');
      p.parse(payload)
  }

  lemma DotFree(p: Primitives, secret: string, s: SessionData)
    requires Lawful(p)
    ensures '.' !in p.toBase64(p.stringify(s))
    ensures '.' !in Signature(p, p.stringify(s), secret)
  {
  }

  /** A freshly created token splits into exactly the encoded payload and its signature. */
  lemma TokenPieces(p: Primitives, secret: string, s: SessionData)
    requires Lawful(p)
    ensures Split(CreateSessionToken(p, secret, s), '.') ==
      [p.toBase64(p.stringify(s)), Signature(p, p.stringify(s), secret)]
  {
    var b := p.toBase64(p.stringify(s));
    var h := Signature(p, p.stringify(s), secret);
    DotFree(p, secret, s);
    SplitAtFirst(b, h, '.');
    NoSeparatorSplit(h, '.');
  }

  /** Round trip: verifying a token made with the same secret returns the session's JSON. */
  lemma VerifyCreated(p: Primitives, secret: string, s: SessionData)
    requires Lawful(p)
    ensures VerifySessionToken(p, secret, CreateSessionToken(p, secret, s)) == Some(SessionJson(s))
  {
    TokenPieces(p, secret, s);
  }

  /** A created token contains exactly one '.'. */
  lemma TokenHasOneDot(p: Primitives, secret: string, s: SessionData)
    requires Lawful(p)
    ensures Occurrences(CreateSessionToken(p, secret, s), '.') == 1
  {
    TokenPieces(p, secret, s);
  }

  /** A token without '.' is rejected. */
  lemma NoDotRejected(p: Primitives, secret: string, token: string)
    requires '.' !in token
    ensures VerifySessionToken(p, secret, token) == None
  {
    NoSeparatorSplit(token, '.');
  }

  /** Whatever follows the second '.' is never looked at. */
  lemma TrailingSegmentsIgnored(p: Primitives, secret: string, a: string, b: string, rest: string)
    requires '.' !in a && '.' !in b
    ensures VerifySessionToken(p, secret, a + "." + b + "." + rest) == VerifySessionToken(p, secret, a + "." + b)
  {
    assert a + "." + b + "." + rest == a + ['.'] + (b + ['.'] + rest);
    SplitAtFirst(a, b + ['.'] + rest, '.');
    SplitAtFirst(b, rest, '.');
    SplitAtFirst(a, b, '.');
    NoSeparatorSplit(b, '.');
  }

  /** A signature piece other than the digest of the decoded payload is rejected. */
  lemma ForgedSignatureRejected(p: Primitives, secret: string, a: string, sig: string)
    requires '.' !in a && '.' !in sig
    requires sig != Signature(p, p.fromBase64(a), secret)
    ensures VerifySessionToken(p, secret, a + "." + sig) == None
  {
    SplitAtFirst(a, sig, '.');
    NoSeparatorSplit(sig, '.');
  }

  /** A token signed under one secret is rejected under another whose digest differs. */
  lemma OtherSecretRejected(p: Primitives, secret: string, other: string, s: SessionData)
    requires Lawful(p)
    requires Signature(p, p.stringify(s), secret) != Signature(p, p.stringify(s), other)
    ensures VerifySessionToken(p, other, CreateSessionToken(p, secret, s)) == None
  {
    TokenPieces(p, secret, s);
  }

  /** Accepting a token means its second piece is the digest and the result is the parse of its payload. */
  lemma AcceptedTokenIsSigned(p: Primitives, secret: string, token: string)
    requires VerifySessionToken(p, secret, token).Some?
    ensures var parts := Split(token, '.');
      |parts| >= 2 && parts[1] == Signature(p, p.fromBase64(parts[0]), secret) &&
      VerifySessionToken(p, secret, token) == p.parse(p.fromBase64(parts[0]))
  {
  }

  // ---------------------------------------------------------------- allow-list

  /** Trims every entry. */
  function TrimAll(parts: seq<string>): (r: seq<string>)
    ensures |r| == |parts| && forall i :: 0 <= i < |parts| ==> r[i] == Trim(parts[i])
  {
    if |parts| == 0 then [] else [Trim(parts[0])] + TrimAll(parts[1..])
  }

  /** `ALLOWED_EMAILS?.split(',').map(e => e.trim()) || []`. */
  function AllowedEmails(env: Env): (emails: seq<string>)
    ensures env.allowedEmails.None? ==> emails == []
  {
    match env.allowedEmails
    case None => []
    case Some(v) => TrimAll(Split(v, ','))
  }

  /** `allowedEmails.includes(email)`: exact comparison, the candidate itself is not trimmed. */
  function IsEmailAllowed(env: Env, email: string): bool
  {
    email in AllowedEmails(env)
  }

  /** Allowed exactly when some comma-separated entry, once trimmed, equals the email. */
  lemma AllowedIffTrimmedEntry(env: Env, email: string)
    ensures IsEmailAllowed(env, email) <==> (env.allowedEmails.Some? &&
      exists part :: part in Split(env.allowedEmails.value, ',') && Trim(part) == email)
  {
    if env.allowedEmails.Some? {
      var parts := Split(env.allowedEmails.value, ',');
      var emails := AllowedEmails(env);
      if email in emails {
        var i :| 0 <= i < |emails| && emails[i] == email;
        assert parts[i] in parts && Trim(parts[i]) == email;
      }
      if exists part :: part in parts && Trim(part) == email {
        var part :| part in parts && Trim(part) == email;
        var i :| 0 <= i < |parts| && parts[i] == part;
        assert emails[i] == email;
      }
    }
  }

  /** An unset list allows nobody. */
  lemma UnsetAllowsNobody(env: Env, email: string)
    requires env.allowedEmails.None?
    ensures !IsEmailAllowed(env, email)
  {
  }

  /** An email with leading or trailing white space is never allowed: entries are trimmed, candidates are not. */
  lemma PaddedEmailNeverAllowed(env: Env, email: string)
    requires email != [] && (IsWhitespace(email[0]) || IsWhitespace(email[|email| - 1]))
    ensures !IsEmailAllowed(env, email)
  {
  }

  /** For a list written as comma-separated trimmed entries, exactly those entries are allowed. */
  lemma {:induction false} AllowListOfEntries(env: Env, entries: seq<string>, email: string)
    requires |entries| >= 1
    requires forall i :: 0 <= i < |entries| ==> ',' !in entries[i]
    requires forall i :: 0 <= i < |entries| ==> (entries[i] == [] ||
      (!IsWhitespace(entries[i][0]) && !IsWhitespace(entries[i][|entries[i]| - 1])))
    requires env.allowedEmails == Some(Join(entries, ','))
    ensures IsEmailAllowed(env, email) <==> email in entries
  {
    SplitJoin(entries, ',');
    forall i | 0 <= i < |entries| ensures Trim(entries[i]) == entries[i] {
      TrimPadded("", entries[i], "");
      assert "" + entries[i] + "" == entries[i];
    }
  }

  // ---------------------------------------------------------------- passwords

  const BcryptCost := 12

  /** bcrypt: `hash(password, cost)` with a random salt, and `compare(password, hash)`. */
  datatype PasswordHasher = PasswordHasher(hash: (string, nat, string) -> string, compare: (string, string) -> bool)

  ghost predicate HasherLawful(h: PasswordHasher)
  {
    forall pw, cost, salt :: h.compare(pw, h.hash(pw, cost, salt))
  }

  function HashPassword(h: PasswordHasher, password: string, salt: string): string
  {
    h.hash(password, BcryptCost, salt)
  }

  function VerifyPassword(h: PasswordHasher, password: string, hash: string): bool
  {
    h.compare(password, hash)
  }

  lemma HashedPasswordVerifies(h: PasswordHasher, password: string, salt: string)
    requires HasherLawful(h)
    ensures VerifyPassword(h, password, HashPassword(h, password, salt))
  {
  }

  // ---------------------------------------------------------------- invite codes

  newtype byte = x: int | 0 <= x < 256

  predicate IsUpperHexChar(c: char)
  {
    ('0' <= c <= '9') || ('A' <= c <= 'F')
  }

  function LowerHexDigit(n: int): (c: char)
    requires 0 <= n < 16
    ensures IsLowerHexChar(c)
  {
    if n < 10 then ('0' as int + n) as char else ('a' as int + n - 10) as char
  }

  /** `Buffer.toString('hex')`: two lower-case digits per byte, high nibble first. */
  function ToHex(bytes: seq<byte>): (s: string)
    ensures |s| == 2 * |bytes|
    ensures forall i :: 0 <= i < |s| ==> IsLowerHexChar(s[i])
  {
    if |bytes| == 0 then ""
    else [LowerHexDigit(bytes[0] as int / 16), LowerHexDigit(bytes[0] as int % 16)] + ToHex(bytes[1..])
  }

  /** `toUpperCase` on the characters a hex string can hold. */
  function UpperAscii(c: char): (u: char)
    ensures 'a' <= c <= 'z' ==> u as int == c as int - 32
    ensures !('a' <= c <= 'z') ==> u == c
  {
    if 'a' <= c <= 'z' then (c as int - 32) as char else c
  }

  function ToUpper(s: string): (u: string)
    ensures |u| == |s| && forall i :: 0 <= i < |s| ==> u[i] == UpperAscii(s[i])
  {
    if |s| == 0 then "" else [UpperAscii(s[0])] + ToUpper(s[1..])
  }

  /** `randomBytes(8).toString('hex').toUpperCase()`, given the eight random bytes. */
  function GenerateInviteCode(random: seq<byte>): (code: string)
    requires |random| == 8
    ensures |code| == 16
    ensures forall i :: 0 <= i < |code| ==> IsUpperHexChar(code[i])
  {
    ToUpper(ToHex(random))
  }

  /** The value of an upper-case hex digit (0 for any other character). */
  function UpperHexValue(c: char): (v: nat)
    ensures v < 16
  {
    if '0' <= c <= '9' then c as int - '0' as int
    else if 'A' <= c <= 'F' then c as int - 'A' as int + 10
    else 0
  }

  lemma NibbleRoundTrip(n: int)
    requires 0 <= n < 16
    ensures UpperHexValue(UpperAscii(LowerHexDigit(n))) == n
  {
  }

  /** Reads a code back into the bytes it spells, two digits per byte. */
  function ParseInviteCode(code: string): (bytes: seq<byte>)
    ensures |bytes| == |code| / 2
  {
    if |code| < 2 then []
    else [(UpperHexValue(code[0]) * 16 + UpperHexValue(code[1])) as byte] + ParseInviteCode(code[2..])
  }

  lemma {:induction false} ParseUpperHex(bytes: seq<byte>)
    ensures ParseInviteCode(ToUpper(ToHex(bytes))) == bytes
  {
    if |bytes| > 0 {
      var b := bytes[0] as int;
      var hex := ToHex(bytes);
      var code := ToUpper(hex);
      assert hex == [LowerHexDigit(b / 16), LowerHexDigit(b % 16)] + ToHex(bytes[1..]);
      assert code[2..] == ToUpper(ToHex(bytes[1..]));
      NibbleRoundTrip(b / 16);
      NibbleRoundTrip(b % 16);
      assert UpperHexValue(code[0]) == b / 16 && UpperHexValue(code[1]) == b % 16;
      ParseUpperHex(bytes[1..]);
    }
  }

  /** Distinct random bytes give distinct codes: the code loses nothing of them. */
  lemma InviteCodeInjective(a: seq<byte>, b: seq<byte>)
    requires |a| == 8 && |b| == 8
    requires GenerateInviteCode(a) == GenerateInviteCode(b)
    ensures a == b
  {
    ParseUpperHex(a);
    ParseUpperHex(b);
  }

  // ---------------------------------------------------------------- cookie

  const SessionCookieName := "session"
  const SessionMaxAge := 60 * 60 * 24 * 7

  datatype Config = Config(prims: Primitives, hasher: PasswordHasher, env: Env)

  function Secure(env: Env): bool
  {
    env.nodeEnv == Some("production")
  }

  function SessionCookie(cfg: Config, s: SessionData): (c: SetCookie)
    ensures c.name == SessionCookieName && c.maxAge == 604800
    ensures c.value == CreateSessionToken(cfg.prims, SessionSecret(cfg.env), s)
    ensures c.httpOnly && c.sameSite == "strict" && (c.secure <==> cfg.env.nodeEnv == Some("production"))
  {
    SetCookie(SessionCookieName, CreateSessionToken(cfg.prims, SessionSecret(cfg.env), s), true, Secure(cfg.env), "strict", SessionMaxAge)
  }

  function ClearedCookie(env: Env): (c: SetCookie)
    ensures c.name == SessionCookieName && c.value == "" && c.maxAge == 0
  {
    SetCookie(SessionCookieName, "", true, Secure(env), "strict", 0)
  }

  method SetSessionCookie(ex: Exchange, cfg: Config, s: SessionData)
    modifies ex
    ensures ex.setCookies == old(ex.setCookies) + [SessionCookie(cfg, s)]
    ensures ex.user == old(ex.user) && ex.groupId == old(ex.groupId)
  {
    ex.setCookies := ex.setCookies + [SessionCookie(cfg, s)];
  }

  method ClearSessionCookie(ex: Exchange, env: Env)
    modifies ex
    ensures ex.setCookies == old(ex.setCookies) + [ClearedCookie(env)]
    ensures ex.user == old(ex.user) && ex.groupId == old(ex.groupId)
  {
    ex.setCookies := ex.setCookies + [ClearedCookie(env)];
  }

  /** `getCookie(c, 'session')`: a missing or empty cookie reads as null, otherwise the token is verified. */
  function GetSessionFromCookie(cfg: Config, cookies: map<string, string>): (r: Option<Json>)
    ensures SessionCookieName !in cookies ==> r == None
    ensures SessionCookieName in cookies && cookies[SessionCookieName] == "" ==> r == None
  {
    if SessionCookieName !in cookies || cookies[SessionCookieName] == "" then None
    else VerifySessionToken(cfg.prims, SessionSecret(cfg.env), cookies[SessionCookieName])
  }

  /** A request carrying the cookie a login issued reads back that login's session. */
  lemma IssuedCookieReadsBack(cfg: Config, s: SessionData, cookies: map<string, string>)
    requires Lawful(cfg.prims)
    requires SessionCookieName in cookies && cookies[SessionCookieName] == SessionCookie(cfg, s).value
    ensures GetSessionFromCookie(cfg, cookies) == Some(SessionJson(s))
  {
    VerifyCreated(cfg.prims, SessionSecret(cfg.env), s);
  }

  /** The value a logout writes reads as no session. */
  lemma ClearedCookieReadsNull(cfg: Config, cookies: map<string, string>)
    requires SessionCookieName in cookies && cookies[SessionCookieName] == ClearedCookie(cfg.env).value
    ensures GetSessionFromCookie(cfg, cookies) == None
  {
  }
}
