# Nespress in Dafny

A model of Nespress, a small HTTP framework on Node's `http` module, and of
the demo blog server written with it.

The router keeps a route table keyed by "lower-cased method, a space, the
path" and a middleware stack.
For every request it decorates the response with `status`, `json` and
`sendFile`, walks the stack from index 0 (each middleware receives a `next`
continuation), and, once the last middleware has called `next`, looks the
request up in the route table and either calls the handler or answers 404
with `{"error": "Cannot <METHOD> <url>"}`.

The demo server registers three middleware:
- an authentication guard for four route keys, which reads a `token=` cookie and looks the token up in the session table;
- a JSON body parser;
- a page-shell middleware that serves `index.html` for four page URLs.

It then registers eight routes over in-memory `SESSIONS`, `USERS` and `POSTS` tables.

Modules:
- `Wrappers`: `Option` and `Result`.
- `Builtins`: the JavaScript built-ins the code relies on. These are ASCII `toLowerCase`, `indexOf`, `Array.prototype.find`, and the `split`-based cookie token extraction. The token extraction also has a declarative specification (`IsCookieToken`).
- `Http`: requests, the response class with its three helpers, and replies and middleware steps.
- `Nespress`: the route key and lookup, the pipeline specification (`Chain`, `Reach`, `Dispatched`) and the `App` class. `App.Route` and `App.BeforeEach` update its fields in place. `App.Dispatch` is a loop over the stack index, proved against `Dispatched`.
- `Blog`: the demo server. The two middleware and the route table are written as functions. The tables live in a `Server` class whose methods update them in place. `Server.Handle` pushes one request through the router and the selected handler, and keeps the table invariant.

Middleware and handlers are abstract in the router. A middleware is an identifier whose behaviour is a function `(M, Request) -> Step`: it either calls `next` with the request as it left it, or stops with the reply it sends. The router reports the handler it selects instead of calling it.

The model follows the code on two points a reader might expect otherwise:
- Paths are not checked to start with `/`.
- `sendFile` sets Content-Type only for a truthy mime type, so an empty string sets nothing.

## Model

| member | source | states |
|---|---|---|
| Nespress.KeyMatches | lib/index.js:52-53 | a request line hits the key of a route whose method and path have no space exactly when the methods agree up to ASCII case and the paths are identical (no trailing-slash folding) |
| Nespress.LookupIgnoresMethodCase | lib/index.js:52 | looking up the lower-cased method gives the same answer as the method as received |
| Nespress.LookupAfterRoute | lib/index.js:78-81 | for a method and path without spaces, after `route(verb, path, h)` a matching request finds `h`, and every other request finds what it found before |
| Nespress.KeysCollideWithSpaces | lib/index.js:79 | two different (method, path) registrations can share one key when a space is involved |
| Nespress.App.Route | lib/index.js:78-81 | the table is the old one with the handler stored under the route key, which replaces an earlier handler; the stack is untouched |
| Nespress.App.BeforeEach | lib/index.js:87-89 | the stack is the old one with the middleware appended at the end |
| Nespress.Chain | lib/index.js:49-66 | the indices run are consecutive from the start; a completed walk has run every remaining middleware; a stopped walk ends at the middleware that withheld `next` |
| Nespress.ChainFrom | lib/index.js:65 | once middleware `k` is reached with request `r`, the walk is `0..k-1` followed by a walk started at `k` with `r` |
| Nespress.AllProceed | lib/index.js:49-68 | when every middleware calls `next`, each runs exactly once, in registration order from index 0, and the walk reaches route resolution |
| Nespress.StopAt | lib/index.js:65 | when middleware `k` withholds `next`, exactly `0..k` have run and the walk ends there with that reply |
| Nespress.CompletesIff | lib/index.js:51-53 | the walk reaches route resolution with `r` exactly when the last middleware hands on `r` |
| Nespress.StopsIff | lib/index.js:64-65 | the walk stops at `k` with a reply exactly when middleware `k` is reached and withholds `next` with that reply |
| Nespress.MatchingRequestIsHandled | lib/index.js:52-61 | for a route registered with a method and path without spaces, a request that reaches resolution and matches it is handed to exactly that route's handler |
| Nespress.UnmatchedRequestIsNotFound | lib/index.js:55-58 | a request that reaches resolution and matches no route ends in 404 with `Cannot <METHOD> <url>`, the method as received, and no handler |
| Nespress.StoppedRequestIsNotRouted | lib/index.js:65 | a request stopped by middleware `k` is never routed and runs no middleware after `k` |
| Nespress.ReachedIff | lib/index.js:49-65 | middleware `k` (route resolution for `k` = stack length) is reached exactly when every earlier middleware was reached and called `next` |
| Nespress.Resolve | lib/index.js:52-61 | resolution never yields a middleware's answer; it calls the handler stored under the request's key, with the request, exactly when that key is registered; otherwise it answers 404 naming the method as received and the URL |
| Nespress.Dispatched | lib/index.js:49-68 | a middleware's answer comes from a middleware that was reached and withheld `next`; any other outcome is the resolution of the request the last middleware handed on |
| Nespress.App.Dispatch | lib/index.js:49-68 | the trace and the outcome are those of the specification; on a miss the response gets status 404, JSON Content-Type and the error body; otherwise the router writes nothing; the response ends as `status(404).json(...)` leaves it |
| Nespress.LastRegistrationWins | lib/index.js:78-81 | registering `get` and then `GET` for one path routes every `get` request on it to the second handler |
| Http.Response.Status | lib/index.js:37-40 | sets the status code and returns the same response object |
| Http.Response.Json | lib/index.js:43-46 | sets Content-Type `application/json` and ends the response with the value; throws and changes nothing on a finished response |
| Http.Response.SendFile | lib/index.js:27-34 | rejects before setting anything when the file cannot be opened; on a finished response rejects for a truthy mime type (`setHeader` throws) and otherwise fulfils changing nothing; on an open response sets Content-Type only for a truthy mime type and ends the response with the file |
| Http.Applied | lib/index.js:27-46 | a reply sets the status when it gives one, then `json` or `sendFile` acts as their methods do, with their errors; a stalled reply writes nothing |
| Http.Perform | lib/index.js:27-46 | the response's new state and the helper's error are exactly those `Applied` gives for its old state |
| Builtins.IndexFrom | examples/server.js:47 | the first position at or after `from` where the pattern occurs, or none when it occurs nowhere there |
| Builtins.CharIndex | examples/server.js:47 | the position of the first occurrence of the character, or the length when it is absent |
| Builtins.Find | examples/server.js:48 | the index of the first element satisfying the predicate; none exactly when no element does |
| Builtins.CookieToken | examples/server.js:47 | absent exactly when the cookie has no `token=`; otherwise the text after the first `token=` up to the next `;`, the next `token=` or the end |
| Builtins.CookieTokenUnique | examples/server.js:47 | a cookie carries at most one token in that sense |
| Builtins.LowerDeterminesUpper | lib/index.js:52 | two methods without lower-case letters that lower to the same string are equal |
| Blog.UserById | examples/server.js:128 | the first user whose id is the given one; none exactly when no user has it (an undefined id matches nobody) |
| Blog.UserByName | examples/server.js:161 | the first user with the given username; none exactly when no user has it |
| Blog.SessionByToken | examples/server.js:48 | the first session holding the given token; none exactly when no session does (an undefined token matches nobody) |
| Blog.TokenOf | examples/server.js:46-47 | no token exactly when the cookie header is missing or empty or has no `token=`; otherwise a token the cookie carries |
| Blog.WithAuthor | examples/server.js:104-105 | only the author changes, and it becomes the name of the first user with the post's `userId` |
| Blog.GuardedExactly | examples/server.js:37-44 | a request is guarded exactly when its method and URL are one of the four pairs, methods in upper case |
| Blog.AuthStep | examples/server.js:36-59 | unguarded requests pass untouched; a guarded one passes exactly when some session holds its cookie token, with `userId` from the first such session; otherwise 401 `Unauthorized!` and no `next` |
| Blog.PagesStep | examples/server.js:83-90 | stops with 200 `index.html` as `text/html` exactly for `GET` on the four page URLs; passes the request untouched otherwise |
| Blog.ApiPassesPages | examples/server.js:84-85 | a URL under `/api/` is never answered by the page-shell middleware |
| Blog.Pipeline | examples/server.js:36-90 | the demo stack stops after the guard with 401, stops after all three with the page shell, or completes after all three with the guard's request |
| Blog.TableRoutes | examples/server.js:92-184 | looking a request line up in the registered table gives the handler of the (lower-cased method, exact URL) pair, and none for other pairs |
| Blog.HandledIsRouted | examples/server.js:92-184 | a handler is reached only for a request line the table routes to it, with the request's method and URL unchanged |
| Blog.UpperMethod | lib/index.js:52 | a method without lower-case letters lowers to the lowered form of `w` exactly when it is `w` |
| Blog.ProtectedRoutes | examples/server.js:112-184 | for methods without lower-case letters, the four protected handlers are routed only for the four guarded request lines |
| Blog.ProtectedRouteIsGuarded | examples/server.js:37-44 | for methods without lower-case letters, a request reaching a protected handler went through the guard |
| Blog.GuardedHandlerHasSession | examples/server.js:46-52 | a guarded request that reaches a handler carries the `userId` of the first session holding its token |
| Blog.LowerCaseMethodSkipsGuard | examples/server.js:44 | a lower-case `post /api/posts` is not guarded but still reaches the post-creating handler without a `userId` |
| Blog.UserInfoReply | examples/server.js:127-130 | throws exactly when no user has the request's `userId`; otherwise answers 200 with the first such user's username and name |
| Blog.LogOutAsWritten | examples/server.js:184-191 | throws a ReferenceError exactly when some session belongs to a user other than the current one; otherwise answers 200; never removes a session |
| Blog.Edited | examples/server.js:141-146 | username and name are always overwritten; the password is replaced only by a truthy one; the id is kept |
| Blog.PasswordStatusReported | examples/server.js:144-152 | `password_status` is `updated` exactly when the password was truthy and `unchanged` exactly when it was not |
| Blog.UserByIdAfterEdit | examples/server.js:139-146 | editing a user keeps its id, so no lookup by id changes |
| Blog.Authenticated | examples/server.js:161-164 | a login names the first user with the given username, and only when that user has the given password; it fails exactly when there is no such user or the first one has another password |
| Blog.NoPasswordNoLogin | examples/server.js:164 | with every stored password truthy, a login without a password fails |
| Blog.IdsDistinct | examples/server.js:117 | posts whose ids count down have pairwise distinct ids |
| Blog.NewPostKeepsIds | examples/server.js:116-122 | putting the new post, with id count + 1, in front keeps the ids counting down from the count |
| Blog.AttributedIffNoOrphan | examples/server.js:103-105 | listing the posts finds a post without a user exactly when not every post is attributed |
| Blog.InitialTables | examples/server.js:5-29 | the initial tables are consistent and every initial post names a user |
| Blog.CreateKeepsTables | examples/server.js:112-124 | creating a post keeps the tables consistent, and keeps every post attributed when the request's user exists |
| Blog.EditKeepsTables | examples/server.js:133-153 | editing a user keeps the tables consistent and every post attributed |
| Blog.LoginKeepsTables | examples/server.js:164-171 | a session for an existing user keeps the tables consistent |
| Blog.ListKeepsTables | examples/server.js:102-109 | rewriting posts with their ids and user ids kept keeps the tables consistent and attributed |
| Blog.ServedKeepsTables | examples/server.js:92-191 | whatever a handler does, the tables stay consistent, and every post stays attributed unless a post is created for a `userId` that names no user |
| Blog.NewRouter | examples/server.js:33-184 | the router holds the three middleware in order and the eight routes |
| Blog.Server.constructor | examples/server.js:5-33 | the initial tables and the wired router; the invariant holds and every post is attributed |
| Blog.Server.ListPosts | examples/server.js:102-109 | sets each post's author to its user's name, in order; throws at the first post without a user, with the earlier posts already updated; otherwise answers 200 with the list |
| Blog.Server.CreatePost | examples/server.js:112-124 | throws without a body; otherwise puts `{id: count + 1, title, body, userId}` in front of the other posts and answers 201 with it |
| Blog.Server.UpdateUser | examples/server.js:133-153 | throws without a body or without the signed-in user; otherwise replaces that user by its edited form and answers 200 with username, name and `password_status` |
| Blog.Server.Login | examples/server.js:156-181 | throws without a body; on a match appends exactly one session with the user's id and the token and answers 200; otherwise answers 401 and leaves the sessions alone |
| Blog.Server.Serve | examples/server.js:92-191 | runs one handler: its reply and the new tables are those its handler's contract gives (styles, scripts, posts listing, post creation, user info, user edit, login, logout), and it writes only its own table; the tables stay consistent; the posts stay attributed unless a post is created for a user that does not exist |
| Blog.Server.Handle | lib/index.js:25-69 | one request through the demo router: the outcome is the specified dispatch; a middleware's answer or the 404 leaves the tables alone, and a handler changes them as `Serve` states; a thrown handler reports `Threw` and leaves the response as the router left it; otherwise the response ends as the router and then the reply leave it, and the result reports a rejected helper; the invariant holds afterwards; posts stay attributed for every method without lower-case letters; only a login changes the sessions |

## Left out

- The Node HTTP server, `listen` and the listener callback with its `console.log` are transport and I/O.
- `sendFile` byte streaming is left out. The model opens the file against a set of openable paths and records which file the response ends with.
- `JSON.stringify` text is left out. A response body is a small JSON value. Members whose value is `undefined` are dropped, as `stringify` does.
- The asynchronous timing of `next` and of promises is left out. A middleware either calls `next` or does not.
- The JSON body-parsing middleware is left out: it is stream events plus `JSON.parse`. It stays in the stack as a pass-through, and the request carries its parsed body, absent when no JSON body was sent. Body values are strings or absent; other JSON types are not modelled.
- The login token is a parameter rather than `Math.random`. The `Set-Cookie` header writes of login and logout are left out.
- Blog.LogOutAsWritten: the logout handler is modelled as written only. Its predicate is inverted (`!==`), and it passes an undefined `index` to `splice`, which throws. The intended behaviour is not evident enough to state a corrected version.
- Builtins.Lower: `toLowerCase` is modelled for ASCII letters only.
- Header names are looked up as given. Node lower-cases them, so `cookie` is the name the guard reads.
- Nespress.KeyMatches: the property is stated for methods and paths without spaces. With spaces, different registrations can share a key (`KeysCollideWithSpaces`).
- Blog.Server.Handle: the posts-attributed property is stated only for methods without lower-case letters. Node's parser delivers only such methods. A lower-case `post` skips the guard (`LowerCaseMethodSkipsGuard`) and can create a post with no user.
- Http.Response.Json: called on a finished response, it is modelled as failing with `HeadersSent` and changing nothing, as Node's `setHeader` throws. The same holds for `sendFile` with a truthy mime type.
- Http.Response.SendFile: on a finished response without a mime type nothing throws and the helper fulfils. The file is piped into the ended response, and Node reports the write after end later as an `error` event. That event is not modelled; the model leaves the response unchanged.
- Nespress.App.Dispatch: on a miss with an already finished response, `json` throws in Node. The model leaves the response as `status(404)` left it and does not report that error.
- Blog.Server.Handle: a `Threw` or `Rejected` result stands for an uncaught exception or an unhandled rejection, and either one ends the Node process. An example is `post /api/login` without a JSON body, which throws when it reads `req.body.username` (examples/server.js:157). The model goes on with its tables and its invariant after such a result, a state the running server never reaches.
- Blog.PostJson: a post's members are listed in one fixed order (id, title, body, userId, author). The seed post's literal has the order id, userId, title, body, so its serialised text differs in member order. JSON object member order is not modelled.
- Blog.FirstPostBody: the seed post's long placeholder text is abbreviated to its first sentence.
