/**
 * The demo blog server built on the router: three in-memory tables (sessions,
 * users, posts), an authentication middleware guarding four routes, a
 * middleware that serves the single-page shell for four page URLs, and the
 * API handlers, each modelled as an operation on the tables that returns the
 * reply it sends.
 */
module Blog {
  import opened Wrappers
  import opened Builtins
  import opened Http
  import opened Nespress

  /** A body or table field as JavaScript sees it: a string or `undefined`. */
  type Field = Option<string>

  datatype User = User(id: int, name: Field, username: Field, password: Field)
  datatype Session = Session(userId: int, token: string)
  datatype Post = Post(id: int, title: Field, body: Field, userId: Option<int>, author: Field)

  /** The three `beforeEach` middleware, in registration order. */
  datatype Middleware = Authenticate | ParseJsonBody | ServePages

  /** The route handlers. */
  datatype Endpoint = StylesFile | ScriptsFile | AllPosts | NewPost | UserInfo | EditUser | LogIn | LogOut

  /** What a handler throws. */
  datatype Thrown = TypeError | ReferenceError

  /** How serving one request can go wrong: a thrown handler, or a rejected or throwing response helper. */
  datatype Fault = Threw(thrown: Thrown) | Rejected(error: ResponseError)

  // ----------------------------------------------------------------------
  // Looking things up in the tables (`Array.prototype.find`)

  /** `USERS.find(user => user.id === id)`; an undefined id finds nobody. */
  function UserById(users: seq<User>, id: Option<int>): (r: Option<nat>)
    ensures r.Some? ==> r.value < |users| && Some(users[r.value].id) == id
    ensures forall j :: 0 <= j < |users| && (r.None? || j < r.value) ==> Some(users[j].id) != id
  {
    Find(users, (u: User) => Some(u.id) == id)
  }

  /** `USERS.find(user => user.username === username)`. */
  function UserByName(users: seq<User>, username: Field): (r: Option<nat>)
    ensures r.Some? ==> r.value < |users| && users[r.value].username == username
    ensures forall j :: 0 <= j < |users| && (r.None? || j < r.value) ==> users[j].username != username
  {
    Find(users, (u: User) => u.username == username)
  }

  /** `SESSIONS.find(session => session.token === token)`; an undefined token finds nobody. */
  function SessionByToken(sessions: seq<Session>, token: Field): (r: Option<nat>)
    ensures r.Some? ==> r.value < |sessions| && Some(sessions[r.value].token) == token
    ensures forall j :: 0 <= j < |sessions| && (r.None? || j < r.value) ==> Some(sessions[j].token) != token
  {
    Find(sessions, (s: Session) => Some(s.token) == token)
  }

  /** Searching two sequences that agree on the predicate everywhere gives the same answer. */
  lemma FindPointwise<T>(s: seq<T>, t: seq<T>, p: T -> bool)
    requires |s| == |t| && forall j :: 0 <= j < |s| ==> p(s[j]) == p(t[j])
    ensures Find(s, p) == Find(t, p)
  {
  }

  /** Replacing a user by one with the same id changes no lookup by id. */
  lemma UserByIdAfterEdit(users: seq<User>, k: nat, u: User, id: Option<int>)
    requires k < |users| && u.id == users[k].id
    ensures UserById(users[k := u], id) == UserById(users, id)
  {
    FindPointwise(users[k := u], users, (x: User) => Some(x.id) == id);
  }

  // ----------------------------------------------------------------------
  // JSON replies

  /** An object literal: members whose value is `undefined` are dropped, as `JSON.stringify` does. */
  function Members(pairs: seq<(string, Option<JsonValue>)>): (r: seq<(string, JsonValue)>)
    ensures forall m :: m in r <==> exists i :: 0 <= i < |pairs| && pairs[i].0 == m.0 && pairs[i].1 == Some(m.1)
  {
    if pairs == [] then []
    else (if pairs[0].1.Some? then [(pairs[0].0, pairs[0].1.value)] else []) + Members(pairs[1..])
  }

  function Str(f: Field): Option<JsonValue>
  {
    if f.Some? then Some(JStr(f.value)) else None
  }

  function Num(n: Option<int>): Option<JsonValue>
  {
    if n.Some? then Some(JNum(n.value)) else None
  }

  function PostJson(p: Post): JsonValue
  {
    JObj(Members([("id", Some(JNum(p.id))), ("title", Str(p.title)), ("body", Str(p.body)),
                  ("userId", Num(p.userId)), ("author", Str(p.author))]))
  }

  function PostsJson(ps: seq<Post>): seq<JsonValue>
  {
    if ps == [] then [] else [PostJson(ps[0])] + PostsJson(ps[1..])
  }

  function Message(key: string, text: string): JsonValue
  {
    JObj([(key, JStr(text))])
  }

  /** `req.body[name]`: `undefined` when the member is missing. */
  function BodyField(req: Request, name: string): Field
    requires req.body.Some?
  {
    if name in req.body.value then Some(req.body.value[name]) else None
  }

  // ----------------------------------------------------------------------
  // The authentication middleware

  /** The four guarded route keys, compared with the method exactly as received. */
  const Guarded: seq<string> := ["GET /api/user", "PUT /api/user", "POST /api/posts", "DELETE /api/logout"]

  predicate IsGuarded(req: Request)
  {
    req.httpMethod + " " + req.url in Guarded
  }

  /** The guard list names exactly four (method, URL) pairs, upper-case methods only. */
  lemma GuardedExactly(req: Request)
    ensures IsGuarded(req) <==>
      (req.httpMethod, req.url) in [("GET", "/api/user"), ("PUT", "/api/user"), ("POST", "/api/posts"), ("DELETE", "/api/logout")]
  {
    var m, u := req.httpMethod, req.url;
    assert Guarded[0] == "GET" + " " + "/api/user";
    assert Guarded[1] == "PUT" + " " + "/api/user";
    assert Guarded[2] == "POST" + " " + "/api/posts";
    assert Guarded[3] == "DELETE" + " " + "/api/logout";
    JoinSplits(m, u, "GET", "/api/user");
    JoinSplits(m, u, "PUT", "/api/user");
    JoinSplits(m, u, "POST", "/api/posts");
    JoinSplits(m, u, "DELETE", "/api/logout");
  }

  /** `req.headers.cookie`. */
  function CookieHeader(req: Request): Field
  {
    if "cookie" in req.headers then Some(req.headers["cookie"]) else None
  }

  /** The token the auth middleware looks up: none without a (non-empty) cookie or without `token=` in it. */
  function TokenOf(req: Request): (r: Field)
    ensures r.None? <==>
      || "cookie" !in req.headers || req.headers["cookie"] == ""
      || forall j :: 0 <= j ==> !StartsAt(req.headers["cookie"], TokenMark, j)
    ensures r.Some? ==> IsCookieToken(req.headers["cookie"], r.value)
  {
    if Truthy(CookieHeader(req)) then CookieToken(CookieHeader(req).value) else None
  }

  const Unauthorized: Reply := Send(Some(401), JsonPayload(Message("error", "Unauthorized!")))

  /** `session` is the first session whose token is the request's token. */
  predicate FirstSessionFor(sessions: seq<Session>, req: Request, i: int)
  {
    && 0 <= i < |sessions|
    && Some(sessions[i].token) == TokenOf(req)
    && forall j :: 0 <= j < i ==> Some(sessions[j].token) != TokenOf(req)
  }

  /**
   * The authentication middleware. Unguarded requests pass on untouched. A
   * guarded one passes on exactly when some session holds its token, with
   * `userId` set from the first such session; otherwise it is answered 401
   * and `next` is withheld.
   */
  function AuthStep(sessions: seq<Session>, req: Request): (s: Step)
    ensures !IsGuarded(req) ==> s == Next(req)
    ensures IsGuarded(req) ==>
      (s.Next? <==> exists i :: 0 <= i < |sessions| && Some(sessions[i].token) == TokenOf(req))
    ensures IsGuarded(req) && s.Next? ==>
      exists i :: FirstSessionFor(sessions, req, i) && s.req == req.(userId := Some(sessions[i].userId))
    ensures s.Halt? ==> s.reply == Unauthorized
  {
    if !IsGuarded(req) then Next(req)
    else match SessionByToken(sessions, TokenOf(req))
      case Some(i) =>
        assert FirstSessionFor(sessions, req, i);
        Next(req.(userId := Some(sessions[i].userId)))
      case None => Halt(Unauthorized)
  }

  // ----------------------------------------------------------------------
  // The page-shell middleware

  const Pages: seq<string> := ["/", "/login", "/profile", "/new-post"]

  const IndexPage: Reply := Send(Some(200), FilePayload("./public/index.html", Some("text/html")))

  /** `res.status(200).sendFile('./public/index.html', 'text/html')` for `GET` on a page URL; `next()` otherwise. */
  function PagesStep(req: Request): (s: Step)
    ensures s.Halt? <==> req.httpMethod == "GET" && req.url in Pages
    ensures s.Halt? ==> s.reply == IndexPage
    ensures s.Next? ==> s.req == req
  {
    if req.url in Pages && req.httpMethod == "GET" then Halt(IndexPage) else Next(req)
  }

  /** API requests are never answered by the page-shell middleware. */
  lemma ApiPassesPages(req: Request)
    requires |req.url| >= 5 && req.url[..5] == "/api/"
    ensures PagesStep(req) == Next(req)
  {
    assert req.url[1] == 'a';
    assert req.url !in Pages by {
      assert "/login"[1] == 'l' && "/profile"[1] == 'p' && "/new-post"[1] == 'n';
    }
  }

  // ----------------------------------------------------------------------
  // The stack as registered

  /**
   * What each middleware does. The body parser hands the request on: the
   * request already carries its parsed body.
   */
  function Behave(sessions: seq<Session>, m: Middleware, req: Request): Step
  {
    match m
    case Authenticate => AuthStep(sessions, req)
    case ParseJsonBody => Next(req)
    case ServePages => PagesStep(req)
  }

  /** The middleware behaviour for one request, reading the session table as it is then. */
  function Runner(sessions: seq<Session>): (Middleware, Request) -> Step
  {
    (m: Middleware, r: Request) => Behave(sessions, m, r)
  }

  const Stack: seq<Middleware> := [Authenticate, ParseJsonBody, ServePages]

  /**
   * The demo stack on any request: stopped with 401 after the auth middleware
   * alone, stopped with the page shell after all three, or completed after
   * all three with the request the auth middleware handed on.
   */
  lemma Pipeline(sessions: seq<Session>, req: Request)
    ensures var a := AuthStep(sessions, req);
      var run := Chain(Stack, Runner(sessions), req, 0);
      if a.Halt? then run == Run([0], StoppedAt(0, Unauthorized))
      else if PagesStep(req).Halt? then run == Run([0, 1, 2], StoppedAt(2, IndexPage))
      else run == Run([0, 1, 2], Completed(a.req))
  {
  }

  /** The route table the script registers. */
  function Table(): map<string, Endpoint>
  {
    map[]
      [RouteKey("get", "/styles.css") := StylesFile]
      [RouteKey("get", "/scripts.js") := ScriptsFile]
      [RouteKey("get", "/api/posts") := AllPosts]
      [RouteKey("post", "/api/posts") := NewPost]
      [RouteKey("get", "/api/user") := UserInfo]
      [RouteKey("put", "/api/user") := EditUser]
      [RouteKey("post", "/api/login") := LogIn]
      [RouteKey("delete", "/api/logout") := LogOut]
  }

  /**
   * Which handler the table selects for a request line: the method is
   * compared lower-cased, the URL exactly.
   */
  function Routed(verb: string, url: string): Option<Endpoint>
  {
    var v := Lower(verb);
    if v == "delete" && url == "/api/logout" then Some(LogOut)
    else if v == "post" && url == "/api/login" then Some(LogIn)
    else if v == "put" && url == "/api/user" then Some(EditUser)
    else if v == "get" && url == "/api/user" then Some(UserInfo)
    else if v == "post" && url == "/api/posts" then Some(NewPost)
    else if v == "get" && url == "/api/posts" then Some(AllPosts)
    else if v == "get" && url == "/scripts.js" then Some(ScriptsFile)
    else if v == "get" && url == "/styles.css" then Some(StylesFile)
    else None
  }

  /** Looking a request line up in the route table is `Routed`. */
  lemma TableRoutes(verb: string, url: string)
    ensures Lookup(Table(), verb, url) == Routed(verb, url)
  {
    var t0: map<string, Endpoint> := map[];
    var t1 := t0[RouteKey("get", "/styles.css") := StylesFile];
    var t2 := t1[RouteKey("get", "/scripts.js") := ScriptsFile];
    var t3 := t2[RouteKey("get", "/api/posts") := AllPosts];
    var t4 := t3[RouteKey("post", "/api/posts") := NewPost];
    var t5 := t4[RouteKey("get", "/api/user") := UserInfo];
    var t6 := t5[RouteKey("put", "/api/user") := EditUser];
    var t7 := t6[RouteKey("post", "/api/login") := LogIn];
    var t8 := t7[RouteKey("delete", "/api/logout") := LogOut];
    LowerLiterals();
    LookupAfterRoute(t0, "get", "/styles.css", StylesFile, verb, url);
    LookupAfterRoute(t1, "get", "/scripts.js", ScriptsFile, verb, url);
    LookupAfterRoute(t2, "get", "/api/posts", AllPosts, verb, url);
    LookupAfterRoute(t3, "post", "/api/posts", NewPost, verb, url);
    LookupAfterRoute(t4, "get", "/api/user", UserInfo, verb, url);
    LookupAfterRoute(t5, "put", "/api/user", EditUser, verb, url);
    LookupAfterRoute(t6, "post", "/api/login", LogIn, verb, url);
    LookupAfterRoute(t7, "delete", "/api/logout", LogOut, verb, url);
  }

  /** The lowered forms of the methods the script and the guard name. */
  lemma LowerLiterals()
    ensures Lower("get") == "get" && Lower("GET") == "get"
    ensures Lower("put") == "put" && Lower("PUT") == "put"
    ensures Lower("post") == "post" && Lower("POST") == "post"
    ensures Lower("delete") == "delete" && Lower("DELETE") == "delete"
  {
  }

  /**
   * A guarded request that reaches a handler carries in `userId` the user of
   * the first session holding the request's token.
   */
  lemma GuardedHandlerHasSession(sessions: seq<Session>, req: Request, h: Endpoint, r: Request)
    requires IsGuarded(req)
    requires Dispatched(Table(), Stack, Runner(sessions), req) == Handled(h, r)
    ensures exists i :: FirstSessionFor(sessions, req, i) && r.userId == Some(sessions[i].userId)
    ensures r.httpMethod == req.httpMethod && r.url == req.url
  {
  }

  /**
   * The guard compares the method as received while the route table lowers
   * it, so a lower-case `post` reaches the post-creating handler with no
   * session and no `userId`. Node's parser accepts upper-case methods only.
   */
  lemma LowerCaseMethodSkipsGuard(sessions: seq<Session>, req: Request)
    requires req.httpMethod == "post" && req.url == "/api/posts" && req.userId == None
    ensures Dispatched(Table(), Stack, Runner(sessions), req) == Handled(NewPost, req)
  {
    Pipeline(sessions, req);
    assert !IsGuarded(req) by { GuardedExactly(req); }
    TableRoutes(req.httpMethod, req.url);
  }

  // ----------------------------------------------------------------------
  // Handlers that only read

  const StylesReply: Reply := Send(None, FilePayload("./public/styles.css", Some("text/css")))
  const ScriptsReply: Reply := Send(None, FilePayload("./public/scripts.js", Some("text/javascript")))

  /** `get /api/user`: the signed-in user's username and name; throws when no user has `req.userId`. */
  function UserInfoReply(users: seq<User>, req: Request): (r: Result<Reply, Thrown>)
    ensures r.Failure? <==> forall j :: 0 <= j < |users| ==> Some(users[j].id) != req.userId
    ensures r.Success? ==>
      exists j :: 0 <= j < |users| && Some(users[j].id) == req.userId &&
        (forall i :: 0 <= i < j ==> Some(users[i].id) != req.userId) &&
        r.value == Send(Some(200), JsonPayload(JObj(Members([("username", Str(users[j].username)), ("name", Str(users[j].name))]))))
  {
    match UserById(users, req.userId)
    case None => Failure(TypeError)
    case Some(k) =>
      Success(Send(Some(200), JsonPayload(JObj(Members([("username", Str(users[k].username)), ("name", Str(users[k].name))])))))
  }

  const LoggedOut: Reply := Send(Some(200), JsonPayload(Message("message", "You are logged out!")))

  /**
   * `delete /api/logout` as written: it looks for a session of ANOTHER user
   * (`!==`), and when it finds one it calls `splice` on an undefined `index`
   * and throws. So it never removes a session, and answers only when every
   * session belongs to the current user.
   */
  function LogOutAsWritten(sessions: seq<Session>, req: Request): (r: Result<Reply, Thrown>)
    ensures r.Failure? <==> exists i :: 0 <= i < |sessions| && Some(sessions[i].userId) != req.userId
    ensures r.Failure? ==> r.error == ReferenceError
    ensures r.Success? ==> r.value == LoggedOut
  {
    match Find(sessions, (s: Session) => Some(s.userId) != req.userId)
    case Some(i) => assert Some(sessions[i].userId) != req.userId; Failure(ReferenceError)
    case None => Success(LoggedOut)
  }

  // ----------------------------------------------------------------------
  // Pure parts of the handlers that write

  /** `{ id: POSTS.length + 1, title, body, userId: req.userId }`. */
  function NewPostFor(count: nat, req: Request): Post
    requires req.body.Some?
  {
    Post(count + 1, BodyField(req, "title"), BodyField(req, "body"), req.userId, None)
  }

  /** A user after `put /api/user`: username and name always overwritten, password only by a truthy one. */
  function Edited(u: User, name: Field, username: Field, password: Field): (r: User)
    ensures r.id == u.id && r.name == name && r.username == username
    ensures r.password == (if Truthy(password) then password else u.password)
  {
    u.(username := username, name := name, password := if Truthy(password) then password else u.password)
  }

  function EditReply(name: Field, username: Field, password: Field): Reply
  {
    Send(Some(200), JsonPayload(JObj(Members([
      ("username", Str(username)), ("name", Str(name)),
      ("password_status", Some(JStr(if Truthy(password) then "updated" else "unchanged")))]))))
  }

  /** The `password_status` member reports `updated` exactly when the edit replaced the password. */
  lemma PasswordStatusReported(u: User, name: Field, username: Field, password: Field)
    ensures var members := EditReply(name, username, password).payload.data.members;
      && (("password_status", JStr("updated")) in members <==> Truthy(password))
      && (("password_status", JStr("unchanged")) in members <==> !Truthy(password))
  {
    var status := if Truthy(password) then "updated" else "unchanged";
    var pairs := [("username", Str(username)), ("name", Str(name)), ("password_status", Some(JStr(status)))];
    var members := Members(pairs);
    assert members == EditReply(name, username, password).payload.data.members;
    assert |"username"| != |"password_status"| && |"name"| != |"password_status"|;
    assert forall i :: 0 <= i < |pairs| && pairs[i].0 == "password_status" ==> i == 2;
    assert ("password_status", JStr(status)) in members by {
      assert pairs[2].0 == "password_status" && pairs[2].1 == Some(JStr(status));
    }
    assert "updated" != "unchanged";
  }

  /** A post once `get /api/posts` has set its author to its user's name. */
  function WithAuthor(p: Post, users: seq<User>): (r: Post)
    requires UserById(users, p.userId).Some?
    ensures r == p.(author := r.author)
    ensures exists i :: (0 <= i < |users| && Some(users[i].id) == p.userId && r.author == users[i].name
                         && forall j :: 0 <= j < i ==> Some(users[j].id) != p.userId)
  {
    p.(author := users[UserById(users, p.userId).value].name)
  }

  /** The first post whose user does not exist: where `get /api/posts` throws. */
  function FirstOrphan(posts: seq<Post>, users: seq<User>): Option<nat>
  {
    Find(posts, Orphaned(users))
  }

  /** A post whose `userId` names no user. */
  function Orphaned(users: seq<User>): Post -> bool
  {
    (p: Post) => UserById(users, p.userId).None?
  }

  /**
   * `USERS.find(user => user.username === username)` followed by the password
   * comparison: the index of the user who logs in, if any.
   */
  function Authenticated(users: seq<User>, username: Field, password: Field): (r: Option<nat>)
    ensures r.Some? ==> r.value < |users| && users[r.value].username == username && users[r.value].password == password
    ensures r.Some? ==> forall j :: 0 <= j < r.value ==> users[j].username != username
    ensures r.None? ==> forall i :: 0 <= i < |users| ==>
      ((users[i].username == username && forall j :: 0 <= j < i ==> users[j].username != username)
       ==> users[i].password != password)
  {
    match UserByName(users, username)
    case None => None
    case Some(k) => if users[k].password == password then Some(k) else None
  }

  /** With every stored password truthy, a login that supplies no password fails. */
  lemma NoPasswordNoLogin(users: seq<User>, username: Field)
    requires forall i :: 0 <= i < |users| ==> Truthy(users[i].password)
    ensures Authenticated(users, username, None) == None
  {
  }

  const LoggedIn: Reply := Send(Some(200), JsonPayload(Message("message", "You are logged in!")))
  const BadLogin: Reply := Send(Some(401), JsonPayload(Message("error", "Invalid username or password")))

  /** Ids count down from the number of posts: newest first, all distinct. */
  predicate IdsCountDown(posts: seq<Post>)
  {
    forall i :: 0 <= i < |posts| ==> posts[i].id == |posts| - i
  }

  /** Putting the new post in front keeps the ids counting down. */
  lemma NewPostKeepsIds(posts: seq<Post>, req: Request)
    requires req.body.Some? && IdsCountDown(posts)
    ensures IdsCountDown([NewPostFor(|posts|, req)] + posts)
  {
  }

  /** Counting-down ids are distinct. */
  lemma IdsDistinct(posts: seq<Post>, i: nat, j: nat)
    requires IdsCountDown(posts) && i < j < |posts|
    ensures posts[i].id != posts[j].id
  {
  }

  /**
   * On any request whose method has no lower-case letter, the four protected
   * handlers are reached only through the guard.
   */
  lemma ProtectedRouteIsGuarded(sessions: seq<Session>, req: Request, h: Endpoint, r: Request)
    requires NoLowerCase(req.httpMethod)
    requires h in {UserInfo, EditUser, NewPost, LogOut}
    requires Dispatched(Table(), Stack, Runner(sessions), req) == Handled(h, r)
    ensures IsGuarded(req)
  {
    HandledIsRouted(sessions, req, h, r);
    ProtectedRoutes(req.httpMethod, req.url, h);
    GuardedExactly(req);
  }

  /** A request reaches handler `h` only when the table routes its request line to `h`. */
  lemma HandledIsRouted(sessions: seq<Session>, req: Request, h: Endpoint, r: Request)
    requires Dispatched(Table(), Stack, Runner(sessions), req) == Handled(h, r)
    ensures Routed(req.httpMethod, req.url) == Some(h)
    ensures r.httpMethod == req.httpMethod && r.url == req.url
  {
    Pipeline(sessions, req);
    TableRoutes(r.httpMethod, r.url);
  }

  /** With no lower-case letter in the method, the protected routes are reached by the guarded request lines only. */
  lemma ProtectedRoutes(m: string, u: string, h: Endpoint)
    requires NoLowerCase(m)
    requires h in {UserInfo, EditUser, NewPost, LogOut} && Routed(m, u) == Some(h)
    ensures (m, u) in [("GET", "/api/user"), ("PUT", "/api/user"), ("POST", "/api/posts"), ("DELETE", "/api/logout")]
  {
    if h == UserInfo {
      assert Lower(m) == "get" && u == "/api/user";
      UpperMethod(m, "GET", "get");
    } else if h == EditUser {
      assert Lower(m) == "put" && u == "/api/user";
      UpperMethod(m, "PUT", "put");
    } else if h == NewPost {
      assert Lower(m) == "post" && u == "/api/posts";
      UpperMethod(m, "POST", "post");
    } else {
      assert Lower(m) == "delete" && u == "/api/logout";
      UpperMethod(m, "DELETE", "delete");
    }
  }

  /** A method with no lower-case letter that lowers to `Lower(w)` is `w`, for `w` free of lower-case letters. */
  lemma UpperMethod(m: string, w: string, lowered: string)
    requires NoLowerCase(m) && NoLowerCase(w) && Lower(w) == lowered
    ensures Lower(m) == lowered <==> m == w
  {
    if Lower(m) == lowered {
      LowerDeterminesUpper(m, w);
    }
  }

  // ----------------------------------------------------------------------
  // The initial tables

  const InitialUsers: seq<User> := [
    User(1, Some("John Doe"), Some("johndoe"), Some("admin")),
    User(2, Some("Jane Doe"), Some("admin"), Some("admin"))]

  /** The seed post's placeholder body, abbreviated to its first sentence. */
  const FirstPostBody: string := "Lorem Ipsum is simply dummy text of the printing and typesetting industry."

  const InitialPosts: seq<Post> := [Post(1, Some("First Post"), Some(FirstPostBody), Some(1), None)]

  // ----------------------------------------------------------------------
  // What holds of the tables between requests

  /** Post ids count down, every session names an existing user, and every stored password is truthy. */
  predicate Consistent(sessions: seq<Session>, users: seq<User>, posts: seq<Post>)
  {
    && IdsCountDown(posts)
    && (forall i :: 0 <= i < |sessions| ==> UserById(users, Some(sessions[i].userId)).Some?)
    && (forall i :: 0 <= i < |users| ==> Truthy(users[i].password))
  }

  /** Every post names an existing user. */
  predicate AllAttributed(users: seq<User>, posts: seq<Post>)
  {
    forall i :: 0 <= i < |posts| ==> UserById(users, posts[i].userId).Some?
  }

  /** Listing the posts finds no orphan exactly when every post is attributed. */
  lemma AttributedIffNoOrphan(users: seq<User>, posts: seq<Post>)
    ensures AllAttributed(users, posts) <==> FirstOrphan(posts, users).None?
  {
  }

  /** The script's initial tables are consistent and every post is attributed. */
  lemma InitialTables()
    ensures Consistent([], InitialUsers, InitialPosts) && AllAttributed(InitialUsers, InitialPosts)
  {
  }

  /** Putting a new post in front keeps the tables consistent, and attributed when its `userId` names a user. */
  lemma CreateKeepsTables(sessions: seq<Session>, users: seq<User>, posts: seq<Post>, req: Request)
    requires req.body.Some? && Consistent(sessions, users, posts)
    ensures Consistent(sessions, users, [NewPostFor(|posts|, req)] + posts)
    ensures AllAttributed(users, posts) && UserById(users, req.userId).Some? ==>
      AllAttributed(users, [NewPostFor(|posts|, req)] + posts)
  {
  }

  /** Editing a user keeps the tables consistent and every post attributed. */
  lemma EditKeepsTables(sessions: seq<Session>, users: seq<User>, posts: seq<Post>,
                        k: nat, name: Field, username: Field, password: Field)
    requires k < |users| && Consistent(sessions, users, posts)
    ensures var us := users[k := Edited(users[k], name, username, password)];
      && Consistent(sessions, us, posts)
      && (AllAttributed(users, posts) ==> AllAttributed(us, posts))
  {
    var us := users[k := Edited(users[k], name, username, password)];
    forall id: Option<int>
      ensures UserById(us, id) == UserById(users, id)
    {
      UserByIdAfterEdit(users, k, us[k], id);
    }
  }

  /** A session for an existing user keeps the tables consistent. */
  lemma LoginKeepsTables(sessions: seq<Session>, users: seq<User>, posts: seq<Post>, k: nat, token: string)
    requires k < |users| && Consistent(sessions, users, posts)
    ensures Consistent(sessions + [Session(users[k].id, token)], users, posts)
  {
  }

  /** Rewriting posts while keeping their ids and user ids keeps the tables consistent and attributed. */
  lemma ListKeepsTables(sessions: seq<Session>, users: seq<User>, posts: seq<Post>, posts': seq<Post>)
    requires Consistent(sessions, users, posts) && |posts'| == |posts|
    requires forall j :: 0 <= j < |posts| ==> posts'[j].id == posts[j].id && posts'[j].userId == posts[j].userId
    ensures Consistent(sessions, users, posts')
    ensures AllAttributed(users, posts) ==> AllAttributed(users, posts')
  {
  }

  // ----------------------------------------------------------------------
  // What each handler does to the tables, as a relation between values

  /** The three tables the script keeps in memory. */
  datatype Store = Store(sessions: seq<Session>, users: seq<User>, posts: seq<Post>)

  /**
   * `get /api/posts` takes the posts from `before` to `after` and answers `r`:
   * it walks the posts in order, setting each one's author to its user's name,
   * and throws at the first post whose user does not exist, with the posts
   * before it already updated. Otherwise it answers 200 with the list.
   */
  predicate Listed(users: seq<User>, before: seq<Post>, after: seq<Post>, r: Result<Reply, Thrown>)
  {
    && |after| == |before|
    && (forall j :: 0 <= j < |after| ==> after[j].id == before[j].id && after[j].userId == before[j].userId)
    && (r.Failure? <==> FirstOrphan(before, users).Some?)
    && (r.Failure? ==>
          var k := FirstOrphan(before, users).value;
          && r.error == TypeError
          && (forall j :: 0 <= j < k ==> after[j] == WithAuthor(before[j], users))
          && after[k..] == before[k..])
    && (r.Success? ==>
          && (forall j :: 0 <= j < |after| ==> after[j] == WithAuthor(before[j], users))
          && r.value == Send(Some(200), JsonPayload(JArr(PostsJson(after)))))
  }

  /** `post /api/posts`: the new post goes in front and is answered with 201; without a body it throws. */
  predicate Created(req: Request, before: seq<Post>, after: seq<Post>, r: Result<Reply, Thrown>)
  {
    && (req.body.None? ==> r == Failure(TypeError) && after == before)
    && (req.body.Some? ==>
          var p := NewPostFor(|before|, req);
          after == [p] + before && r == Success(Send(Some(201), JsonPayload(PostJson(p)))))
  }

  /**
   * `put /api/user`: the signed-in user's username and name are overwritten,
   * the password only by a truthy one; without a body or without such a user
   * it throws and nothing changes.
   */
  predicate Updated(req: Request, before: seq<User>, after: seq<User>, r: Result<Reply, Thrown>)
  {
    && (req.body.None? || UserById(before, req.userId).None? ==> r == Failure(TypeError) && after == before)
    && (req.body.Some? && UserById(before, req.userId).Some? ==>
          var k := UserById(before, req.userId).value;
          var name, username, password := BodyField(req, "name"), BodyField(req, "username"), BodyField(req, "password");
          && after == before[k := Edited(before[k], name, username, password)]
          && r == Success(EditReply(name, username, password)))
  }

  /**
   * `post /api/login`: when the first user with the given username has the
   * given password, one session for that user with `token` is appended and
   * the answer is 200; otherwise the answer is 401 and the sessions stay as
   * they were. Without a body it throws.
   */
  predicate SignedIn(users: seq<User>, req: Request, token: string,
                     before: seq<Session>, after: seq<Session>, r: Result<Reply, Thrown>)
  {
    && (req.body.None? ==> r == Failure(TypeError) && after == before)
    && (req.body.Some? ==>
          var k := Authenticated(users, BodyField(req, "username"), BodyField(req, "password"));
          && (k.Some? ==> after == before + [Session(users[k.value].id, token)] && r == Success(LoggedIn))
          && (k.None? ==> after == before && r == Success(BadLogin)))
  }

  /**
   * Handler `h`, called with request `r`, takes the tables from `s` to `t` and
   * answers `reply`; each handler touches only the table it writes.
   */
  predicate Served(h: Endpoint, r: Request, token: string, s: Store, t: Store, reply: Result<Reply, Thrown>)
  {
    match h
    case StylesFile => reply == Success(StylesReply) && t == s
    case ScriptsFile => reply == Success(ScriptsReply) && t == s
    case AllPosts => Listed(s.users, s.posts, t.posts, reply) && t == s.(posts := t.posts)
    case NewPost => Created(r, s.posts, t.posts, reply) && t == s.(posts := t.posts)
    case UserInfo => reply == UserInfoReply(s.users, r) && t == s
    case EditUser => Updated(r, s.users, t.users, reply) && t == s.(users := t.users)
    case LogIn => SignedIn(s.users, r, token, s.sessions, t.sessions, reply) && t == s.(sessions := t.sessions)
    case LogOut => reply == LogOutAsWritten(s.sessions, r) && t == s
  }

  /**
   * Every handler keeps the tables consistent, and the posts attributed unless
   * a post is created for a `userId` that names no user.
   */
  lemma ServedKeepsTables(h: Endpoint, r: Request, token: string, s: Store, t: Store, reply: Result<Reply, Thrown>)
    requires Consistent(s.sessions, s.users, s.posts) && Served(h, r, token, s, t, reply)
    ensures Consistent(t.sessions, t.users, t.posts)
    ensures AllAttributed(s.users, s.posts) && (h == NewPost ==> UserById(s.users, r.userId).Some?) ==>
      AllAttributed(t.users, t.posts)
  {
    match h
    case AllPosts =>
      ListKeepsTables(s.sessions, s.users, s.posts, t.posts);
    case NewPost =>
      if r.body.Some? {
        CreateKeepsTables(s.sessions, s.users, s.posts, r);
      }
    case EditUser =>
      if r.body.Some? && UserById(s.users, r.userId).Some? {
        EditKeepsTables(s.sessions, s.users, s.posts, UserById(s.users, r.userId).value,
                        BodyField(r, "name"), BodyField(r, "username"), BodyField(r, "password"));
      }
    case LogIn =>
      if r.body.Some? {
        var k := Authenticated(s.users, BodyField(r, "username"), BodyField(r, "password"));
        if k.Some? {
          LoginKeepsTables(s.sessions, s.users, s.posts, k.value, token);
        }
      }
    case _ =>
  }

  /** The router the script builds: three `beforeEach` calls, then eight `route` calls. */
  method NewRouter() returns (a: App<Middleware, Endpoint>)
    ensures fresh(a) && a.middleware == Stack && a.routes == Table()
  {
    a := new App<Middleware, Endpoint>();
    a.BeforeEach(Authenticate);
    a.BeforeEach(ParseJsonBody);
    a.BeforeEach(ServePages);
    a.Route("get", "/styles.css", StylesFile);
    a.Route("get", "/scripts.js", ScriptsFile);
    a.Route("get", "/api/posts", AllPosts);
    a.Route("post", "/api/posts", NewPost);
    a.Route("get", "/api/user", UserInfo);
    a.Route("put", "/api/user", EditUser);
    a.Route("post", "/api/login", LogIn);
    a.Route("delete", "/api/logout", LogOut);
  }

  // ----------------------------------------------------------------------
  // The server: its tables and its router

  class Server {
    var sessions: seq<Session>
    var users: seq<User>
    var posts: seq<Post>
    const app: App<Middleware, Endpoint>

    /** What holds between requests: the router is wired as the script wires it, and the tables are consistent. */
    ghost predicate Valid()
      reads this, app
    {
      Wired() && Tables()
    }

    /** The router holds the script's middleware stack and route table. */
    ghost predicate Wired()
      reads this, app
    {
      app.middleware == Stack && app.routes == Table()
    }

    /** The tables are consistent. */
    ghost predicate Tables()
      reads this
    {
      Consistent(sessions, users, posts)
    }

    /** The tables as a value. */
    function Contents(): Store
      reads this
    {
      Store(sessions, users, posts)
    }

    /** Every post names an existing user, so listing the posts cannot throw. */
    ghost predicate Attributed()
      reads this
    {
      AllAttributed(users, posts)
    }

    /** The script: the tables' initial contents, three `beforeEach` calls, eight `route` calls. */
    constructor ()
      ensures Valid() && Attributed()
      ensures sessions == [] && users == InitialUsers && posts == InitialPosts
    {
      var a := NewRouter();
      app := a;
      sessions := [];
      users := InitialUsers;
      posts := InitialPosts;
      new;
      InitialTables();
    }

    /** `get /api/posts`, as `Listed` describes it. */
    method ListPosts() returns (r: Result<Reply, Thrown>)
      modifies this`posts
      ensures Listed(users, old(posts), posts, r)
    {
      var i := 0;
      while i < |posts|
        invariant 0 <= i <= |posts| == |old(posts)|
        invariant forall j :: 0 <= j < i ==> UserById(users, old(posts)[j].userId).Some?
        invariant forall j :: 0 <= j < i ==> posts[j] == WithAuthor(old(posts)[j], users)
        invariant posts[i..] == old(posts)[i..]
      {
        var u := UserById(users, posts[i].userId);
        if u.None? {
          assert old(posts)[i] == posts[i];
          assert FirstOrphan(old(posts), users) == Some(i) by {
            FindFirst(old(posts), Orphaned(users), i);
          }
          return Failure(TypeError);
        }
        posts := posts[i := posts[i].(author := users[u.value].name)];
        i := i + 1;
      }
      assert FirstOrphan(old(posts), users).None?;
      r := Success(Send(Some(200), JsonPayload(JArr(PostsJson(posts)))));
    }

    /** `post /api/posts`, as `Created` describes it. */
    method CreatePost(req: Request) returns (r: Result<Reply, Thrown>)
      modifies this`posts
      ensures Created(req, old(posts), posts, r)
    {
      if req.body.None? {
        return Failure(TypeError);
      }
      var p := NewPostFor(|posts|, req);
      posts := [p] + posts;
      r := Success(Send(Some(201), JsonPayload(PostJson(p))));
    }

    /** `put /api/user`, as `Updated` describes it. */
    method UpdateUser(req: Request) returns (r: Result<Reply, Thrown>)
      modifies this`users
      ensures Updated(req, old(users), users, r)
    {
      if req.body.None? {
        return Failure(TypeError);
      }
      var name, username, password := BodyField(req, "name"), BodyField(req, "username"), BodyField(req, "password");
      var found := UserById(users, req.userId);
      if found.None? {
        return Failure(TypeError);
      }
      var k := found.value;
      var u := users[k].(username := username, name := name);
      if Truthy(password) {
        u := u.(password := password);
      }
      users := users[k := u];
      r := Success(EditReply(name, username, password));
    }

    /** `post /api/login`, as `SignedIn` describes it; `token` is the random token the handler draws. */
    method Login(req: Request, token: string) returns (r: Result<Reply, Thrown>)
      modifies this`sessions
      ensures SignedIn(users, req, token, old(sessions), sessions, r)
    {
      if req.body.None? {
        return Failure(TypeError);
      }
      var username, password := BodyField(req, "username"), BodyField(req, "password");
      var found := UserByName(users, username);
      if found.Some? && users[found.value].password == password {
        sessions := sessions + [Session(users[found.value].id, token)];
        r := Success(LoggedIn);
      } else {
        r := Success(BadLogin);
      }
    }

    /**
     * Runs handler `h` on the request it receives, as `Served` describes. The
     * tables stay consistent, only a login touches the sessions, and the
     * posts stay attributed unless a post is created for a `userId` that
     * names no user.
     */
    method Serve(h: Endpoint, r: Request, token: string) returns (reply: Result<Reply, Thrown>)
      requires Tables()
      modifies this`sessions, this`users, this`posts
      ensures Served(h, r, token, old(Contents()), Contents(), reply)
      ensures Tables()
      ensures h != LogIn ==> sessions == old(sessions)
      ensures old(Attributed()) && (h == NewPost ==> UserById(old(users), r.userId).Some?) ==> Attributed()
    {
      ghost var before := Contents();
      match h {
        case StylesFile => reply := Success(StylesReply);
        case ScriptsFile => reply := Success(ScriptsReply);
        case AllPosts => reply := ListPosts();
        case NewPost => reply := CreatePost(r);
        case UserInfo => reply := UserInfoReply(users, r);
        case EditUser => reply := UpdateUser(r);
        case LogIn => reply := Login(r, token);
        case LogOut => reply := LogOutAsWritten(sessions, r);
      }
      ServedKeepsTables(h, r, token, before, Contents(), reply);
    }

    /**
     * One request through the router and the handler it selects. `token` is
     * the token a login would draw, `openable` the files `sendFile` can open.
     * `reply` is what the middleware or handler that answered did: a
     * middleware's own reply, nothing after the router's 404, or the
     * handler's reply, which may have thrown. The response ends as the router
     * and then that reply leave it; `result` says whether a helper rejected or
     * the handler threw. The invariant holds afterwards; posts stay attributed
     * for any method Node's parser can deliver; only a login adds sessions.
     */
    method Handle(req: Request, token: string, res: Response, openable: set<string>)
      returns (outcome: Outcome<Endpoint>, reply: Result<Reply, Thrown>, result: Result<(), Fault>)
      requires Valid()
      modifies this`sessions, this`users, this`posts, res
      ensures Valid()
      ensures outcome == Dispatched(Table(), Stack, Runner(old(sessions)), req)
      ensures outcome.ShortCircuit? ==> reply == Success(outcome.reply) && Contents() == old(Contents())
      ensures outcome.NotFound? ==> reply == Success(Stall) && Contents() == old(Contents())
      ensures outcome.Handled? ==> Served(outcome.handler, outcome.req, token, old(Contents()), Contents(), reply)
      ensures reply.Failure? ==> result == Failure(Threw(reply.error)) && Snapshot(res) == old(Snapshot(res))
      ensures reply.Success? ==>
        var (sent, e) := Applied(AfterRouting(old(Snapshot(res)), outcome), reply.value, openable);
        && Snapshot(res) == sent
        && result == (if e.Success? then Success(()) else Failure(Rejected(e.error)))
      ensures old(Attributed()) && NoLowerCase(req.httpMethod) ==> Attributed()
      ensures !(outcome.Handled? && outcome.handler == LogIn) ==> sessions == old(sessions)
    {
      ghost var s0 := sessions;
      var trace;
      trace, outcome := app.Dispatch(req, Runner(sessions), res);
      match outcome {
        case ShortCircuit(_, stopped) =>
          reply := Success(stopped);
        case NotFound(_, _) =>
          reply := Success(Stall);  // the router has already answered 404
        case Handled(h, r) =>
          if h == NewPost && NoLowerCase(req.httpMethod) {
            ProtectedRouteIsGuarded(s0, req, NewPost, r);
            GuardedHandlerHasSession(s0, req, NewPost, r);
          }
          reply := Serve(h, r, token);
      }
      if reply.Failure? {
        result := Failure(Threw(reply.error));
      } else {
        var e := Perform(res, reply.value, openable);
        result := if e.Success? then Success(()) else Failure(Rejected(e.error));
      }
    }
  }
}
