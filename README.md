# maple, modelled in Dafny

maple is a travel log for couples. Two people share a *couple group*, which holds at most two members and is joined by invite code. They drop *pins* on a map of Japan, and each pin records a place, its prefecture and the time of the visit.

- **Backend.** A Hono server over a relational store. It provides session cookies signed with SHA-256, an e-mail allow-list for login and sign-up, group creation and joining, listing, and per-prefecture counts. It also handles pin create, list, get, update and delete.
- **Shared.** The zod request schemas.
- **Frontend.** The API client, the polling and realtime-data hooks, and the geocoding search box, which works out the prefecture of a place.

This project models those parts and proves what they promise:

- every handler answers with the right status and envelope, in the order of its checks;
- every store change keeps the store consistent, including the two-member limit and unique emails and invite codes;
- a session token the server issues verifies back to its content, and a forged one does not;
- an invite code is 16 upper-case hex digits, and decoding it gives back its bytes;
- the prefecture counts are exact;
- a group's pin list is exactly that group's pins, latest visit first;
- the poller never has two live intervals;
- the realtime view replaces its data only when the data changed;
- the client's envelope unwrapping turns each server answer into the right value or `ApiError`.

One module per core source file, plus the shared helper modules `Wrappers`, `Text`, `Json`, `Store`, `Http` and `Router`:

| module | file | models |
|---|---|---|
| `Wrappers`, `Text`, `Json` | — | `Option`, JavaScript string operations (`split`, `trim`, `includes`, UTF-16 length), parsed JSON values |
| `Schemas` | `schemas.dfy` | `packages/shared/src/schemas/{auth,group,pin}.ts` |
| `Store` | `store.dfy` | the Prisma tables as a `Database` class and its consistency invariant |
| `Http` | `http.dfy` | the response envelope and the per-request context (`Exchange`) |
| `Session` | `session.dfy` | `apps/backend/src/utils/auth.ts` |
| `Middleware` | `middleware.dfy` | `apps/backend/src/middleware/auth.ts` |
| `AuthRoutes`, `GroupRoutes`, `PinRoutes` | `*_routes.dfy` | `apps/backend/src/routes/{auth,groups,pins}.ts` |
| `Polling`, `Realtime` | `polling.dfy`, `realtime.dfy` | `apps/frontend/src/hooks/{usePolling,useRealtimeData}.ts` |
| `LocationSearch` | `location_search.dfy` | `apps/frontend/src/components/LocationSearch.tsx` |
| `ApiClient` | `api_client.dfy` | `apps/frontend/src/lib/api.ts` |
| `Router` | `router.dfy` | the server's routing table: the three mounts of `apps/backend/src/index.ts` and the routes each router declares |

The model takes the source's own forms:

- **Handlers that write to the store** are methods on a `Database` object and an `Exchange`. These are register, group create and join, and pin create, update and delete. Each method's `ensures` gives the response and the whole new state for every branch, and each keeps `Database.Valid()`.
- **Login and logout** are methods that change only the `Exchange`: login appends the session cookie, logout the clearing cookie. Login reads the `Database` without modifying it; logout takes no `Database` at all.
- **Read-only handlers** are functions that read the database. These are me, group list, stats, pin list and pin get.
- **The React hooks** are classes whose fields are the refs and state. The component's searches and clicks are methods.
- **The prefecture extraction's two `for … break` loops** are `while` loops proved against a functional specification.

Crypto, base64, `JSON.stringify`/`JSON.parse` and bcrypt are parameters: datatypes of function values (`Primitives`, `PasswordHasher`). The laws the proofs need are stated as predicates and required by the lemmas that use them (`Lawful`: parse inverts stringify, base64 decoding inverts encoding, base64 text has no `.`, a digest is 64 lower-case hex digits; `HasherLawful`: `compare` accepts what `hash` produced). The following are parameters as well:

- the random bytes of an invite code;
- the ids the store generates;
- the clock (`now`) and `new Date(s)` (`parseDate`);
- the store's failure when creating a pin (`fault`);
- the geocoder's answer (`Lookup`);
- the fetch outcome in the realtime hook.

## Model

| member | source | states |
|---|---|---|
| Text.Split | apps/backend/src/utils/auth.ts:41 | `split` returns one more piece than there are separators, no piece holds a separator, and joining the pieces gives the input back |
| Text.SplitJoin | apps/backend/src/utils/auth.ts:9 | splitting a separator-free list of entries joined by the separator returns exactly those entries |
| Text.Trim | apps/backend/src/utils/auth.ts:9 | `trim` yields a string no longer than its input with no whitespace at either end |
| Text.TrimDropsOnlyPadding | apps/backend/src/utils/auth.ts:9 | what `trim` keeps is a slice of its input, and what it drops on each side is whitespace |
| Text.TrimPadded | apps/frontend/src/components/LocationSearch.tsx:52 | whitespace padding around a string without whitespace at its ends is exactly what `trim` removes |
| Text.Includes | apps/frontend/src/components/LocationSearch.tsx:44 | `includes` holds iff the substring occurs at some index |
| Text.Utf16Length | apps/frontend/src/components/LocationSearch.tsx:24 | the UTF-16 length lies between the number of code points and twice that, and equals it for BMP-only text |
| Json.Lookup | packages/shared/src/schemas/auth.ts:3-6 | a key is absent iff no member has it; otherwise the value is that of the last member with the key |
| Json.LookupOtherKey | packages/shared/src/schemas/auth.ts:3-6 | a member added under another key does not change what a key reads |
| Schemas.EmailShape | packages/shared/src/schemas/auth.ts:4 | an accepted e-mail has exactly one `@`, neither first nor last |
| Schemas.RequiredText | packages/shared/src/schemas/auth.ts:5 | `z.string().min(n)`: the value is the key's string when it is present, a string, and at least n UTF-16 units long; otherwise rejected |
| Schemas.OptionalText | packages/shared/src/schemas/auth.ts:10 | `.optional()`: absent gives "no value"; a string passing the check gives that string; anything else, `null` included, is rejected |
| Schemas.RequiredNumber | packages/shared/src/schemas/pin.ts:6-7 | `z.number().min(lo).max(hi)`: a number within both inclusive bounds, otherwise rejected |
| Schemas.OptionalNumber | packages/shared/src/schemas/pin.ts:13 | the same bounds on an optional key: absent is accepted, a number out of range is rejected |
| Schemas.ParseLogin | packages/shared/src/schemas/auth.ts:3-6 | accepted iff `email` is a valid address and `password` is at least six units long; the request carries exactly those two strings |
| Schemas.ParseRegister | packages/shared/src/schemas/auth.ts:8-12 | an accepted body has a valid email, a password of at least six units and a name that is absent or a non-empty string, all read from the body |
| Schemas.RegisterRejectsEmptyName | packages/shared/src/schemas/auth.ts:10 | a present but empty name fails the register schema |
| Schemas.RegisterBodyIsLoginBody | packages/shared/src/schemas/auth.ts:3-12 | every accepted register body is an accepted login body with the same credentials |
| Schemas.LoginIgnoresUndeclaredKeys | packages/shared/src/schemas/auth.ts:3-6 | keys not declared by the login schema do not affect its result (zod strips them) |
| Schemas.ParseCreateGroup | packages/shared/src/schemas/group.ts:3-6 | an accepted request's name is the body's non-empty `name` string and its description is exactly what the body's `description` holds (absent, or that string); conversely every body with a non-empty name string and an absent or string description is accepted with exactly those values |
| Schemas.ParseJoinGroup | packages/shared/src/schemas/group.ts:8-10 | accepted iff `inviteCode` is a non-empty string, which is kept |
| Schemas.ParseGroupMember | packages/shared/src/schemas/group.ts:21-26 | an accepted member carries the body's `id`, `userId`, `groupId` and `role` strings; conversely every body holding four strings under those keys is accepted with exactly them |
| Schemas.AnyRoleAccepted | packages/shared/src/schemas/group.ts:25 | the role is an unconstrained string: any role is accepted |
| Schemas.ParseCreatePin | packages/shared/src/schemas/pin.ts:3-11 | an accepted pin satisfies every field constraint (non-empty title and prefecture, latitude within ±90, longitude within ±180, ISO datetime `visitedAt` with zod 3.23's date and time ranges), and each of its seven fields, the optional `description`, `address` and `visitedAt` included, is exactly what the body holds under that key |
| Schemas.CreatePinComplete | packages/shared/src/schemas/pin.ts:3-11 | the converse: a body holding exactly the fields of a request that meets every constraint is accepted as that request |
| Schemas.ParseUpdatePin | packages/shared/src/schemas/pin.ts:13 | `partial()`: only object bodies are accepted; each of the seven fields of the patch is present iff the body supplies it, holds exactly the body's value, and meets the create constraint |
| Schemas.UpdatePinComplete | packages/shared/src/schemas/pin.ts:13 | the converse: an object body holding exactly the fields of a patch whose supplied fields meet the create constraints is accepted as that patch |
| Schemas.CreateBodyIsUpdateBody | packages/shared/src/schemas/pin.ts:13 | every accepted create body is an accepted update body supplying the same fields |
| Schemas.EmptyUpdateAccepted | packages/shared/src/schemas/pin.ts:13 | `{}` is a valid update that sets nothing |
| Schemas.LeapDayAccepted | packages/shared/src/schemas/pin.ts:10 | `datetime()` accepts 29 February of a leap year at 23:59:59 with a fraction |
| Schemas.OutOfRangeDateRefused | packages/shared/src/schemas/pin.ts:10 | `datetime()` refuses a month over 12, a day past the month's length and 29 February of a common year |
| Schemas.OutOfRangeTimeRefused | packages/shared/src/schemas/pin.ts:10 | `datetime()` refuses hour 24 and minute 60 |
| Schemas.UpdateRejectsNonObject | packages/shared/src/schemas/pin.ts:13 | a body that is not an object is refused |
| Schemas.ParsePrefectureStats | packages/shared/src/schemas/pin.ts:30-33 | accepted iff the body's `prefecture` is a string and its `count` a number, and the result holds exactly those two values |
| Store.UserByEmail | apps/backend/src/routes/auth.ts:28-30 | `findUnique` by email: none iff no user has that email, otherwise the user who does |
| Store.GroupByCode | apps/backend/src/routes/groups.ts:55-60 | `findUnique` by invite code: none iff no group has that code, otherwise the group that does |
| Store.FindPin | apps/backend/src/routes/pins.ts:129-135 | `findUnique` by id: none iff no row has the id, otherwise a row that does |
| Store.PinsOfGroup | apps/backend/src/routes/pins.ts:81-84 | `where: { groupId }`: exactly the rows of that group, with distinct ids when the table's are |
| Store.HasMemberIsKeyLookup | apps/backend/src/routes/pins.ts:137-144 | on a consistent store, `members.some(m => m.userId === u)` agrees with the composite-key lookup |
| Store.AddUserPreserves | apps/backend/src/routes/auth.ts:80-88 | adding a user with a fresh id and an unused email keeps the store consistent |
| Store.AddGroupPreserves | apps/backend/src/routes/groups.ts:16-28 | a new group with its creator as sole admin keeps the store consistent and has exactly one member |
| Store.JoinPreserves | apps/backend/src/routes/groups.ts:95-110 | joining a group of fewer than two that lacks the user keeps every group within two members and adds exactly one |
| Store.AddPinPreserves | apps/backend/src/routes/pins.ts:44-60 | appending a pin with a fresh id, an existing group and author keeps the store consistent |
| Store.ReplacePinPreserves | apps/backend/src/routes/pins.ts:187-202 | rewriting a row that keeps its id, group and author keeps the store consistent |
| Store.RemovePinPreserves | apps/backend/src/routes/pins.ts:244-246 | deleting a row keeps the store consistent |
| Store.Database.constructor | apps/backend/src/routes/auth.ts:80-88 | the empty store is consistent |
| Http.Validate | apps/backend/src/routes/auth.ts:17 | `zValidator('json', schema)`: passes iff a body is present and the schema accepts it, with the schema's result |
| Http.OrNull | apps/backend/src/routes/auth.ts:85 | `name \|\| null`: absent and empty both become null, any other name is kept |
| Session.SessionSecret | apps/backend/src/utils/auth.ts:7 | `JWT_SECRET \|\| 'default-secret-key'`: an unset or empty variable gives the default |
| Session.VerifySessionToken | apps/backend/src/utils/auth.ts:39-56 | a token without a `.` is never accepted |
| Session.TokenPieces | apps/backend/src/utils/auth.ts:30-37 | a token issued by `Session.CreateSessionToken` splits on `.` into the base64 payload and the hex signature |
| Session.TokenHasOneDot | apps/backend/src/utils/auth.ts:36 | an issued token holds exactly one `.` |
| Session.VerifyCreated | apps/backend/src/utils/auth.ts:30-56 | verifying an issued token with the same secret gives back its session data |
| Session.NoDotRejected | apps/backend/src/utils/auth.ts:41-50 | a token without a `.` has no signature and is refused |
| Session.TrailingSegmentsIgnored | apps/backend/src/utils/auth.ts:41 | the destructuring reads only the first two pieces: anything after a second `.` is ignored |
| Session.ForgedSignatureRejected | apps/backend/src/utils/auth.ts:44-50 | a signature other than the SHA-256 of payload and secret is refused |
| Session.OtherSecretRejected | apps/backend/src/utils/auth.ts:44-50 | a token issued under one secret is refused under a secret that signs its payload differently |
| Session.AcceptedTokenIsSigned | apps/backend/src/utils/auth.ts:39-56 | every accepted token's second piece is the signature of its decoded payload, and the result is that payload parsed |
| Session.AllowedEmails | apps/backend/src/utils/auth.ts:8-11 | an unset variable gives the empty list; what a set one allows is `Session.AllowedIffTrimmedEntry` |
| Session.AllowedIffTrimmedEntry | apps/backend/src/utils/auth.ts:21-28 | `Session.IsEmailAllowed`: an email is allowed iff the variable is set and one of its comma-separated entries trims to it |
| Session.UnsetAllowsNobody | apps/backend/src/utils/auth.ts:9 | with `ALLOWED_EMAILS` unset nobody may log in or register |
| Session.PaddedEmailNeverAllowed | apps/backend/src/utils/auth.ts:25 | an email with whitespace at either end never matches a trimmed entry |
| Session.AllowListOfEntries | apps/backend/src/utils/auth.ts:8-28 | for a variable written as comma-joined trimmed entries, allowed iff the email is one of them |
| Session.HashedPasswordVerifies | apps/backend/src/utils/auth.ts:13-19 | `Session.VerifyPassword` under a lawful bcrypt accepts a password against the hash `Session.HashPassword` made of it |
| Session.ToHex | apps/backend/src/utils/auth.ts:85 | `toString('hex')`: two lower-case hex digits per byte |
| Session.GenerateInviteCode | apps/backend/src/utils/auth.ts:84-86 | eight random bytes give sixteen upper-case hex digits |
| Session.ParseUpperHex | apps/backend/src/utils/auth.ts:85 | decoding the upper-cased hex returns the bytes: the encoding loses nothing |
| Session.InviteCodeInjective | apps/backend/src/utils/auth.ts:84-86 | distinct random bytes give distinct invite codes |
| Session.SessionCookie | apps/backend/src/utils/auth.ts:58-66 | `session` cookie holding the token, httpOnly, SameSite strict, seven days, secure exactly in production |
| Session.ClearedCookie | apps/backend/src/utils/auth.ts:75-82 | the same cookie with an empty value and max-age 0 |
| Session.SetSessionCookie | apps/backend/src/utils/auth.ts:58-66 | exactly one cookie is appended to the response; the request context is unchanged |
| Session.ClearSessionCookie | apps/backend/src/utils/auth.ts:75-82 | exactly one clearing cookie is appended; the request context is unchanged |
| Session.GetSessionFromCookie | apps/backend/src/utils/auth.ts:68-73 | a missing or empty cookie gives no session without verifying |
| Session.IssuedCookieReadsBack | apps/backend/src/utils/auth.ts:58-73 | the cookie the server sets reads back as its session data |
| Session.ClearedCookieReadsNull | apps/backend/src/utils/auth.ts:68-82 | the cleared cookie reads as no session |
| Middleware.AuthGate | apps/backend/src/middleware/auth.ts:15-41 | 401 iff the session is missing, unverifiable or falsy; passes iff its `userId` string names a stored user, with that user's id and stored email; otherwise 401 or 500 |
| Middleware.MemberGate | apps/backend/src/middleware/auth.ts:43-73 | 400 iff `groupId` is missing or empty; passes iff the caller is a member, with that group id; otherwise 403 |
| Middleware.IssuedSessionAuthenticates | apps/backend/src/middleware/auth.ts:15-41 | an issued session of an existing user passes, carrying the email stored now |
| Middleware.DeletedUserRejected | apps/backend/src/middleware/auth.ts:26-37 | a valid session of a user no longer stored gets 401 'ユーザーが見つかりません' |
| Middleware.MissingGroupIdIgnoresMembers | apps/backend/src/middleware/auth.ts:47-53 | the missing-groupId answer is given before, and independent of, any membership lookup |
| Middleware.RequireAuth | apps/backend/src/middleware/auth.ts:15-41 | applies the gate: on rejection nothing changes, otherwise the context user is set |
| Middleware.RequireGroupMember | apps/backend/src/middleware/auth.ts:43-73 | applies the gate: on rejection nothing changes, otherwise the context group id is set |
| AuthRoutes.Login | apps/backend/src/routes/auth.ts:17-55 | 400 invalid body, 403 not allowed, 401 unknown email or wrong password (one message), else the session cookie of that user and its public fields; the store is untouched |
| AuthRoutes.Register | apps/backend/src/routes/auth.ts:57-105 | 400, 403 not allowed, 400 email taken, else exactly one new user with the bcrypt hash and `name \|\| null`, a session cookie, the store still consistent |
| AuthRoutes.LoginAs | apps/backend/src/routes/auth.ts:20-52 | for a validated request: 403 not allowed, 401 unknown email or wrong password, else that user's session cookie and public fields |
| AuthRoutes.RegisterAs | apps/backend/src/routes/auth.ts:60-102 | for a validated request: 403 not allowed, 400 email taken, else exactly one new user and its session cookie, the store still consistent |
| AuthRoutes.RegisteredNameIsSentName | apps/backend/src/routes/auth.ts:85 | after validation `name \|\| null` keeps the name sent, since an empty one was refused |
| AuthRoutes.Logout | apps/backend/src/routes/auth.ts:107-115 | always 200 and one clearing cookie, no authentication needed |
| AuthRoutes.Me | apps/backend/src/routes/auth.ts:117-137 | the gate's answer, or the caller's id, email and name read from the store |
| AuthRoutes.MeAfterLogin | apps/backend/src/routes/auth.ts:117-137 | the cookie login sets makes `/me` return that user's public fields |
| GroupRoutes.CreateGroup | apps/backend/src/routes/groups.ts:10-49 | the gate's answer, 400, or exactly one new group with a fresh invite code and the caller as its admin; a colliding code is a 500 with nothing changed |
| GroupRoutes.JoinGroup | apps/backend/src/routes/groups.ts:51-118 | in order 401, 400 invalid body, 400 unknown code, 400 full (two members), 400 already a member, else exactly one new member row; the store still consistent |
| GroupRoutes.GroupsOfUser | apps/backend/src/routes/groups.ts:120-157 | a group is listed iff the user is a member; each entry carries its stored group, members and pin count |
| GroupRoutes.ListGroups | apps/backend/src/routes/groups.ts:120-157 | the gate's answer, or the caller's groups, each entry being a stored group with its members' public fields and its number of pins |
| GroupRoutes.Bump | apps/backend/src/routes/groups.ts:162-171 | counting one more pin adds one to that prefecture's count and to the total, nothing else |
| GroupRoutes.Tally | apps/backend/src/routes/groups.ts:159-183 | one entry per prefecture that has pins, none other, each count positive and equal to that prefecture's pins, the counts summing to the number of pins |
| GroupRoutes.CountForEntry | apps/backend/src/routes/groups.ts:162-171 | with distinct keys an entry's count is the count of its prefecture |
| GroupRoutes.CountForMissing | apps/backend/src/routes/groups.ts:162-171 | a prefecture without an entry counts zero |
| GroupRoutes.StatsEntryCounts | apps/backend/src/routes/groups.ts:159-183 | every stats entry is the exact, positive number of the group's pins in its prefecture |
| GroupRoutes.PrefectureStats | apps/backend/src/routes/groups.ts:159-183 | the gates' answers, or the tally of exactly the group's pins |
| PinRoutes.NewPin | apps/backend/src/routes/pins.ts:44-50 | the stored row holds the validated fields, the header's group, the caller as author, and the supplied date or now |
| PinRoutes.SuppliedVisitedAtIsUsed | apps/backend/src/routes/pins.ts:49 | a validated `visitedAt` is never empty, so a supplied date is always the one stored |
| PinRoutes.ApplyPatch | apps/backend/src/routes/pins.ts:187-202 | supplied fields replace, omitted fields stay, id, group and author never change, `visitedAt` only when truthy |
| PinRoutes.EmptyPatchKeepsPin | apps/backend/src/routes/pins.ts:187-202 | the empty update leaves the pin as it was |
| PinRoutes.PatchIdempotent | apps/backend/src/routes/pins.ts:187-202 | applying an update twice equals applying it once |
| PinRoutes.InsertByVisited | apps/backend/src/routes/pins.ts:94-96 | inserting keeps the order latest first and adds exactly the inserted pin |
| PinRoutes.OrderByVisitedDesc | apps/backend/src/routes/pins.ts:94-96 | `orderBy: { visitedAt: 'desc' }`: sorted latest first and a permutation of its input |
| PinRoutes.CreatePin | apps/backend/src/routes/pins.ts:9-76 | 401, 400 body, 400 no `X-Group-Id`, 403 not a member of it, 500 store failure with its message, else exactly one pin appended and returned with its author |
| PinRoutes.InsertPin | apps/backend/src/routes/pins.ts:19-75 | the same answers after authentication, with the store only changed by the one appended row |
| PinRoutes.InsertValidPin | apps/backend/src/routes/pins.ts:13-75 | for a validated body: 400 no `X-Group-Id`, 403 not a member, 500 store failure, else exactly the new row appended and returned |
| PinRoutes.ListPins | apps/backend/src/routes/pins.ts:78-105 | the gates' answers, or exactly the group's pins, latest visit first, each once, each with its author's stored id, name and email |
| PinRoutes.GetPin | apps/backend/src/routes/pins.ts:107-152 | 401, 404 unknown id, 403 not a member of the pin's group, else the pin with its author's stored id, name and email, its group and the group's members |
| PinRoutes.MemberReadsOthersPin | apps/backend/src/routes/pins.ts:137-144 | any member of the pin's group may read it, whoever created it |
| PinRoutes.UpdatePin | apps/backend/src/routes/pins.ts:154-210 | 401, 400, 404, 403 for non-members, else exactly that row rewritten by the patch and returned |
| PinRoutes.DeletePin | apps/backend/src/routes/pins.ts:212-253 | 401, 404, 403 for non-members, else exactly that row removed |
| PinRoutes.RemoveOnlyTarget | apps/backend/src/routes/pins.ts:244-246 | deleting removes the pin with that id and keeps every other pin |
| Polling.AtMostOneLive | apps/frontend/src/hooks/usePolling.ts:19-38 | the timer ref tracks the only live interval, so at most one interval is live |
| Polling.Poller.constructor | apps/frontend/src/hooks/usePolling.ts:14-17 | no interval before mounting |
| Polling.Poller.StartPolling | apps/frontend/src/hooks/usePolling.ts:19-31 | clears the previous interval and leaves exactly the new one live |
| Polling.Poller.StopPolling | apps/frontend/src/hooks/usePolling.ts:33-38 | no interval live afterwards; a second stop changes nothing |
| Polling.Poller.Mount | apps/frontend/src/hooks/usePolling.ts:40-48 | enabled starts one interval, disabled leaves none |
| Polling.Poller.Render | apps/frontend/src/hooks/usePolling.ts:40-48 | the latest callback is used; a change of `enabled` starts or stops, otherwise the interval stays |
| Polling.Poller.VisibilityChange | apps/frontend/src/hooks/usePolling.ts:50-57 | hidden stops polling; visible and enabled restarts with one interval; visible and disabled changes nothing |
| Polling.Poller.Tick | apps/frontend/src/hooks/usePolling.ts:24-30 | a tick of the live interval calls the current callback, a stale one calls nothing; the method changes no state (no `modifies`), which is what the try/catch around the callback gives |
| Polling.Poller.Unmount | apps/frontend/src/hooks/usePolling.ts:61-64 | no interval live after unmounting |
| Realtime.PollingOptions | apps/frontend/src/hooks/useRealtimeData.ts:57-60 | polls every ten seconds, enabled iff enabled and a group is chosen |
| Realtime.Invalidate | apps/frontend/src/hooks/useRealtimeData.ts:73-76 | forgets both hashes and keeps the data |
| Realtime.InactiveLoadDoesNothing | apps/frontend/src/hooks/useRealtimeData.ts:27 | without a group, or when disabled, loading changes nothing |
| Realtime.PinsReplacedIffChanged | apps/frontend/src/hooks/useRealtimeData.ts:36-42 | the pins are replaced iff their hash differs from the last one, and the last hash is then the new one |
| Realtime.StatsReplacedIffChanged | apps/frontend/src/hooks/useRealtimeData.ts:38-47 | the same for the prefecture stats |
| Realtime.SuccessStampsTime | apps/frontend/src/hooks/useRealtimeData.ts:49-54 | a successful load stamps the time and ends loading |
| Realtime.FailureKeepsData | apps/frontend/src/hooks/useRealtimeData.ts:50-54 | a failed load keeps data, hashes and time, and ends loading |
| Realtime.ReloadIsQuiet | apps/frontend/src/hooks/useRealtimeData.ts:36-47 | loading the same data again replaces nothing |
| Realtime.InvalidateForcesReplace | apps/frontend/src/hooks/useRealtimeData.ts:73-76 | after invalidation the next successful load replaces both |
| Realtime.RealtimeData.constructor | apps/frontend/src/hooks/useRealtimeData.ts:14-20 | empty data, no time, not loading, empty hashes |
| Realtime.RealtimeData.LoadData | apps/frontend/src/hooks/useRealtimeData.ts:26-55 | the new state is the transition `Realtime.Load` of the old one, the props unchanged; the lemmas above state what `Realtime.Load` does |
| Realtime.RealtimeData.ChangeProps | apps/frontend/src/hooks/useRealtimeData.ts:55-67 | new props are stored; unchanged props change nothing, changed ones run one load under the new guard on the old data and hashes |
| Realtime.RealtimeData.ForceRefresh | apps/frontend/src/hooks/useRealtimeData.ts:69-71 | exactly a `loadData` |
| Realtime.RealtimeData.InvalidateCache | apps/frontend/src/hooks/useRealtimeData.ts:73-76 | the new state is the old one with both hashes forgotten |
| LocationSearch.FirstRegion | apps/frontend/src/components/LocationSearch.tsx:43-48 | a found item is a region item of the context; none iff no item is a region |
| LocationSearch.FirstRegionIsFirst | apps/frontend/src/components/LocationSearch.tsx:43-48 | the found item is preceded only by non-region items |
| LocationSearch.FirstSuffixed | apps/frontend/src/components/LocationSearch.tsx:53-58 | a found part ends in 県, 府, 都 or 道; none iff no part does |
| LocationSearch.PrefectureOf | apps/frontend/src/components/LocationSearch.tsx:65 | `prefecture \|\| '不明'`: never empty |
| LocationSearch.ToSearchResult | apps/frontend/src/components/LocationSearch.tsx:61-67 | name and address are the place name, coordinates the center, prefecture as extracted |
| LocationSearch.MapFeatures | apps/frontend/src/components/LocationSearch.tsx:38-68 | one result per feature, in order |
| LocationSearch.RegionTextWins | apps/frontend/src/components/LocationSearch.tsx:43-48 | a region item with text decides the prefecture, whatever the place name says |
| LocationSearch.PlaceNameFallback | apps/frontend/src/components/LocationSearch.tsx:51-59 | without a usable region text, the first trimmed comma-separated part with a prefecture suffix is taken |
| LocationSearch.UnknownDefault | apps/frontend/src/components/LocationSearch.tsx:51-65 | with neither, the prefecture is '不明' |
| LocationSearch.TrimmedPartFound | apps/frontend/src/components/LocationSearch.tsx:52-58 | padding around the first part does not hide its suffix |
| LocationSearch.RegionText | apps/frontend/src/components/LocationSearch.tsx:43-48 | the context loop yields the first region item's text, or "" |
| LocationSearch.SuffixedPart | apps/frontend/src/components/LocationSearch.tsx:53-58 | the place-name loop yields the first suffixed part, or "" |
| LocationSearch.ExtractPrefecture | apps/frontend/src/components/LocationSearch.tsx:39-59 | the two loops together compute the extraction's specification |
| LocationSearch.SearchBox.constructor | apps/frontend/src/components/LocationSearch.tsx:17-21 | empty query and results, hidden, not searching |
| LocationSearch.SearchBox.SearchLocation | apps/frontend/src/components/LocationSearch.tsx:23-83 | a query under two UTF-16 units clears and hides without a lookup; features list all their results, in order; anything else clears and hides; searching ends |
| LocationSearch.SearchBox.SelectResult | apps/frontend/src/components/LocationSearch.tsx:97-101 | reports (longitude, latitude), prefecture and address, shows the place name, hides the list |
| ApiClient.BaseUrl | apps/frontend/src/lib/api.ts:3 | an unset or empty variable gives `http://localhost:3001`, any other value is used as is |
| ApiClient.Url | apps/frontend/src/lib/api.ts:16 | the URL is the base followed by the endpoint |
| ApiClient.UrlInjective | apps/frontend/src/lib/api.ts:16 | distinct endpoints give distinct URLs |
| ApiClient.FetchInitAsWritten | apps/frontend/src/lib/api.ts:18-25 | credentials included; caller headers replace the merged headers; the JSON content type only without caller headers |
| ApiClient.FetchInitMerged | apps/frontend/src/lib/api.ts:18-25 | credentials included; the headers are the JSON content type overridden by the caller's, no header lost |
| ApiClient.AssembliesAgreeWithoutHeaders | apps/frontend/src/lib/api.ts:18-25 | both assemblies agree on every call that passes no headers |
| ApiClient.Request | apps/frontend/src/lib/api.ts:12-25 | fetches the URL with credentials and the merged headers |
| ApiClient.ErrorValue | apps/frontend/src/lib/api.ts:30 | `data.error \|\| 'Unknown error'` is never falsy, and is the server's error when that is truthy |
| ApiClient.Unwrap | apps/frontend/src/lib/api.ts:27-33 | resolves with `data` iff the envelope's `success` is truthy; otherwise an `ApiError` with the status; a non-JSON body or a `null` one throws instead |
| ApiClient.SuccessResolves | apps/frontend/src/lib/api.ts:29-33 | a handler's success answer resolves with its data |
| ApiClient.FailureRaises | apps/frontend/src/lib/api.ts:29-31 | a handler's error answer raises an `ApiError` with its message and status |
| ApiClient.InvalidBodyRaises | apps/frontend/src/lib/api.ts:29-31 | the validator's answer raises an `ApiError` carrying its issue object |
| ApiClient.InternalErrorIsNotJson | apps/frontend/src/lib/api.ts:27 | the server's plain-text 500 fails in `response.json()`, before any `ApiError` |
| ApiClient.StatsPathInjective | apps/frontend/src/lib/api.ts:71-72 | distinct groups have distinct stats paths |
| ApiClient.PinListPathInjective | apps/frontend/src/lib/api.ts:85-86 | distinct groups have distinct pin-list paths |
| ApiClient.PinPathInjective | apps/frontend/src/lib/api.ts:88-98 | distinct pins have distinct pin paths |
| ApiClient.PinPathIsNotPinList | apps/frontend/src/lib/api.ts:85-98 | a slash-free pin id never addresses a pin list |
| ApiClient.OnlyCreatePinSetsHeaders | apps/frontend/src/lib/api.ts:36-99 | every other endpoint gets the JSON content type even as written |
| ApiClient.CreatePinLosesContentType | apps/frontend/src/lib/api.ts:18-25 | as written, `pins.create` sends `X-Group-Id` alone, without the JSON content type |
| ApiClient.CreatePinKeepsBothHeaders | apps/frontend/src/lib/api.ts:20-23 | with the headers merged, `pins.create` sends both the JSON content type and `X-Group-Id` |
| ApiClient.Envelope | apps/frontend/src/lib/api.ts:27 | what `response.json()` yields: no JSON iff the server answered with its plain-text internal error; otherwise the `success`/`data`/`error` envelope |
| ApiClient.ReachesDeclaredRoute | apps/frontend/src/lib/api.ts:12-25 | a call whose method (default `GET`) and endpoint are a declared route's reaches that route |
| Router.Dispatch | apps/backend/src/index.ts:16-18 | whatever route a request reaches is declared with exactly that method and path |
| Router.DispatchReachesRoute | apps/backend/src/index.ts:16-18 | every declared route whose parameter is one non-empty segment is reached by its own method and path, and by no other route |
| ApiClient.LoginCallRouted | apps/frontend/src/lib/api.ts:38-42 | `auth.login` sends `POST /auth/login`, which reaches the login handler |
| ApiClient.RegisterCallRouted | apps/frontend/src/lib/api.ts:44-48 | `auth.register` sends `POST /auth/register`, which reaches the register handler |
| ApiClient.LogoutCallRouted | apps/frontend/src/lib/api.ts:50-51 | `auth.logout` sends `POST /auth/logout`, which reaches the logout handler |
| ApiClient.MeCallRouted | apps/frontend/src/lib/api.ts:53 | `auth.me` sends `GET /auth/me`, which reaches the `/me` handler |
| ApiClient.CreateGroupCallRouted | apps/frontend/src/lib/api.ts:57-61 | `groups.create` sends `POST /groups`, which reaches the create handler |
| ApiClient.JoinGroupCallRouted | apps/frontend/src/lib/api.ts:63-67 | `groups.join` sends `POST /groups/join`, which reaches the join handler |
| ApiClient.ListGroupsCallRouted | apps/frontend/src/lib/api.ts:69 | `groups.list` sends `GET /groups`, which reaches the list handler |
| ApiClient.GroupStatsCallRouted | apps/frontend/src/lib/api.ts:71-72 | for a one-segment group id, `groups.stats` reaches the prefecture-stats handler with that id |
| ApiClient.CreatePinCallRouted | apps/frontend/src/lib/api.ts:76-83 | `pins.create` sends `POST /pins`, which reaches the pin create handler |
| ApiClient.ListPinsCallRouted | apps/frontend/src/lib/api.ts:85-86 | for a one-segment group id, `pins.list` reaches the pin list handler with that id |
| ApiClient.GetPinCallRouted | apps/frontend/src/lib/api.ts:88-89 | for a one-segment pin id, `pins.get` reaches the pin get handler with that id |
| ApiClient.UpdatePinCallRouted | apps/frontend/src/lib/api.ts:91-95 | for a one-segment pin id, `pins.update` reaches the update handler with that id |
| ApiClient.DeletePinCallRouted | apps/frontend/src/lib/api.ts:97-98 | for a one-segment pin id, `pins.delete` reaches the delete handler with that id |
| ApiClient.LoginBodyAccepted | apps/frontend/src/lib/api.ts:38-42 | valid credentials sent by `auth.login` pass the server's login schema unchanged |
| ApiClient.RegisterFieldsAccepted | packages/shared/src/schemas/auth.ts:8-12 | a body whose three fields hold valid values passes the register schema with exactly those values |
| ApiClient.RegisterBodyAccepted | apps/frontend/src/lib/api.ts:44-48 | the `auth.register` body (name omitted when absent) passes the register schema with the same fields |
| ApiClient.CreateGroupBodyAccepted | apps/frontend/src/lib/api.ts:57-61 | the `groups.create` body passes the group schema with the same name and description |
| ApiClient.JoinBodyAccepted | apps/frontend/src/lib/api.ts:63-67 | the `groups.join` body passes the join schema with the same code |

## Findings

| source | as written | input that shows it | evidently intended | confidence | as-written member | corrected member |
|---|---|---|---|---|---|---|
| apps/frontend/src/lib/api.ts:18-25 | `...options` is spread after the merged `headers`, so a call that passes headers replaces the whole merged object | `api.pins.create(g, pinData)` sends only `X-Group-Id: g` and no `Content-Type: application/json`, so the JSON validator on `POST /pins` does not see a JSON body | the JSON content type merged with the caller's headers, as the `headers` literal spells out | not executed; high that the header is lost, medium on how the server then answers | ApiClient.CreatePinLosesContentType | ApiClient.CreatePinKeepsBothHeaders |

## Left out

- ApiClient.Request: sends the headers merged (the corrected assembly of the finding above); the assembly as written is `ApiClient.FetchInitAsWritten`.
- ApiClient.Unwrap: keeps the error value `data.error || 'Unknown error'` as JSON; the `Error` constructor's conversion of a non-string value to a string message is not modelled.
- ApiClient: `JSON.stringify` of request bodies is not modelled. A body is the JSON value handed to it, and an `undefined` member is left out, as `stringify` does.
- ApiClient: `fetch` and the network are not modelled. A call is the value passed to `fetch`, and a response is its status and what `response.json()` yields.
- Json: JSON numbers are exact reals, not JavaScript doubles. The rounding of number literals and the `Infinity` of an overlarge literal, which `z.number()` accepts, are not modelled. The core does no arithmetic on these values; it only compares them with the schema bounds and stores them.
- Timestamps (`createdAt`, `updatedAt`) are not modelled. `/me` and the store rows return them in the source.
- Store ids, invite-code randomness, the clock and `new Date(s)` are parameters. A fresh id comes with a precondition that it is unused. `new Date(s)` is a function `parseDate`, so malformed dates are not modelled.
- Store failures other than the invite-code collision on group create and the `fault` parameter on pin create are not modelled. These include the race between two concurrent joins, which the database's unique key would turn into a 500.
- The behaviour of crypto, base64, `JSON.parse` and bcrypt is not modelled. It enters only through the `Lawful` and `HasherLawful` predicates that the lemmas require. `JSON.parse` of a session payload may return any JSON value.
- Request header names are case-insensitive in the source. The model keys them in lower case.
- Browser cookie handling beyond the value and max-age is not modelled. That includes deletion of a max-age-0 cookie and the httpOnly, secure and SameSite enforcement.
- The validator's answer to a body that is not JSON, or is sent without a JSON content type, is not modelled. The model receives an absent body and answers 400.
- GroupRoutes.Tally: lists prefectures in order of first appearance. The source's order comes from an unordered grouping, so the contract states the entries' set and counts, not their order.
- PinRoutes.OrderByVisitedDesc: the order among pins with equal `visitedAt` is not stated, since the database leaves it unspecified.
- Polling: the interval is a constant of the poller. Changing it re-creates `startPolling` in the source, which is not modelled.
- Realtime: the interim `isLoading = true` during a load is not modelled. Each load is one atomic step, and `isLoading` is false when it ends. The concurrency of `Promise.all` and of overlapping loads is not modelled.
- Realtime: the initial-load effect is modelled by calling `LoadData`, which applies the same guard as the effect.
- LocationSearch: the 300 ms debounce of `handleInputChange` is not modelled, nor is its query update. The geocoding fetch and a malformed feature center are not modelled either.
- GroupRoutes.GroupsOfUser: returns the set of the caller's groups. `findMany` returns an array whose order the query leaves unspecified, so the order is not modelled.
- Router: only the routes of the core routers are modelled, not `/health`, CORS or the logger. A route parameter is one non-empty path segment, as Hono matches it; the client does not encode ids, so an id holding `/` reaches no route.
- Realtime.RealtimeData: a change of props is modelled by `ChangeProps`, which runs one load as the initial-load effect does. The data and the hash refs are not reset by it, as in the source.
- Logging (`console.log`/`console.error`) and all rendering are not modelled.
