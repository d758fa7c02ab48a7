/**
 * The Nespress router: a route table keyed by "lower-cased method, space,
 * path", a middleware stack run in registration order, and the per-request
 * dispatcher that walks the stack and then calls the matching handler or
 * answers 404.
 *
 * Middleware and handlers are abstract: a middleware is an identifier of
 * type `M` whose behaviour is given by `run`, and a handler is an identifier
 * of type `H` that the dispatcher reports rather than calls.
 */
module Nespress {
  import opened Wrappers
  import opened Builtins
  import opened Http

  /** The route-table key: the lower-cased method, a space, and the path verbatim. */
  function RouteKey(verb: string, path: string): string
  {
    Lower(verb) + " " + path
  }

  /** `this.routes[key]` for the key built from a request's method and URL. */
  function Lookup<H>(routes: map<string, H>, verb: string, url: string): Option<H>
  {
    var key := RouteKey(verb, url);
    if key in routes then Some(routes[key]) else None
  }

  /**
   * A request line matches the key of a route registered with a method and a
   * path free of spaces exactly when the methods agree up to case and the
   * paths are equal character for character (no trailing-slash folding).
   */
  lemma KeyMatches(verb: string, path: string, reqVerb: string, url: string)
    requires ' ' !in verb && ' ' !in path
    ensures RouteKey(reqVerb, url) == RouteKey(verb, path) <==> (Lower(reqVerb) == Lower(verb) && url == path)
  {
    LowerKeepsSpaces(verb);
    JoinSplits(Lower(reqVerb), url, Lower(verb), path);
  }

  /**
   * After `route(verb, path, h)`, for a method and path without spaces, a
   * request is answered by `h` when it matches that route, and exactly as
   * before otherwise.
   */
  lemma LookupAfterRoute<H>(routes: map<string, H>, verb: string, path: string, h: H, reqVerb: string, url: string)
    requires ' ' !in verb && ' ' !in path
    ensures Lookup(routes[RouteKey(verb, path) := h], reqVerb, url) ==
      if Lower(reqVerb) == Lower(verb) && url == path then Some(h) else Lookup(routes, reqVerb, url)
  {
    KeyMatches(verb, path, reqVerb, url);
  }

  /** Lookup ignores the case of the request's method. */
  lemma LookupIgnoresMethodCase<H>(routes: map<string, H>, verb: string, url: string)
    ensures Lookup(routes, Lower(verb), url) == Lookup(routes, verb, url)
  {
    LowerIdempotent(verb);
  }

  /** Without the space-free condition two different routes can share a key. */
  lemma KeysCollideWithSpaces()
    ensures RouteKey("get", "/a b") == RouteKey("get /a", "b")
  {
  }

  /** The indices `lo, lo + 1, ..., hi - 1`. */
  function Range(lo: nat, hi: nat): (r: seq<nat>)
    requires lo <= hi
    decreases hi - lo
    ensures |r| == hi - lo
    ensures forall j :: 0 <= j < |r| ==> r[j] == lo + j
  {
    if lo == hi then [] else [lo] + Range(lo + 1, hi)
  }

  lemma RangeSnoc(lo: nat, hi: nat)
    requires lo <= hi
    ensures Range(lo, hi) + [hi] == Range(lo, hi + 1)
  {
  }

  /** How a walk through the stack ends: at route resolution, or at a middleware that withheld `next`. */
  datatype End = Completed(req: Request) | StoppedAt(index: nat, reply: Reply)

  /** The indices of the middleware run, in order, and how the walk ended. */
  datatype Run = Run(trace: seq<nat>, end: End)

  /**
   * `runMiddleware(i)`: run middleware `i` and, when it calls `next`, continue
   * at `i + 1`; at the end of the stack, hand the request to route resolution.
   * The indices run are consecutive from `i`; a completed walk has run every
   * remaining middleware and a stopped one ends at the middleware that stopped it.
   */
  function Chain<M>(mws: seq<M>, run: (M, Request) -> Step, req: Request, i: nat): (r: Run)
    requires i <= |mws|
    decreases |mws| - i
    ensures i + |r.trace| <= |mws| && r.trace == Range(i, i + |r.trace|)
    ensures r.end.Completed? ==> i + |r.trace| == |mws|
    ensures r.end.StoppedAt? ==> |r.trace| > 0 && r.end.index == i + |r.trace| - 1
  {
    if i == |mws| then Run([], Completed(req))
    else match run(mws[i], req)
      case Next(req') =>
        var rest := Chain(mws, run, req', i + 1);
        Run([i] + rest.trace, rest.end)
      case Halt(reply) => Run([i], StoppedAt(i, reply))
  }

  /**
   * The request that middleware `k` receives (route resolution when
   * `k == |mws|`), or `None` when an earlier middleware withheld `next`.
   */
  function Reach<M>(mws: seq<M>, run: (M, Request) -> Step, req: Request, k: nat): Option<Request>
    requires k <= |mws|
  {
    if k == 0 then Some(req)
    else match Reach(mws, run, req, k - 1)
      case None => None
      case Some(r) =>
        match run(mws[k - 1], r)
        case Next(r') => Some(r')
        case Halt(_) => None
  }

  /** Middleware `k` is reached exactly when every middleware before it was reached and called `next`. */
  lemma {:induction false} ReachedIff<M>(mws: seq<M>, run: (M, Request) -> Step, req: Request, k: nat)
    requires k <= |mws|
    ensures Reach(mws, run, req, k).Some? <==> forall j :: 0 <= j < k ==>
      Reach(mws, run, req, j).Some? && run(mws[j], Reach(mws, run, req, j).value).Next?
  {
    if k > 0 {
      ReachedIff(mws, run, req, k - 1);
    }
  }

  /** Once the walk has reached middleware `k` with request `r`, it continues as a walk started there. */
  lemma {:induction false} ChainFrom<M>(mws: seq<M>, run: (M, Request) -> Step, req: Request, k: nat, r: Request)
    requires k <= |mws| && Reach(mws, run, req, k) == Some(r)
    ensures Chain(mws, run, req, 0).trace == Range(0, k) + Chain(mws, run, r, k).trace
    ensures Chain(mws, run, req, 0).end == Chain(mws, run, r, k).end
  {
    if k > 0 {
      var r0 := Reach(mws, run, req, k - 1).value;
      assert run(mws[k - 1], r0) == Next(r);
      ChainFrom(mws, run, req, k - 1, r0);
      var rest := Chain(mws, run, r, k);
      assert Chain(mws, run, r0, k - 1) == Run([k - 1] + rest.trace, rest.end);
      RangeSnoc(0, k - 1);
      AppendAssoc(Range(0, k - 1), [k - 1], rest.trace);
    }
  }

  lemma AppendAssoc(a: seq<nat>, b: seq<nat>, c: seq<nat>)
    ensures a + (b + c) == (a + b) + c
  {
  }

  /**
   * When every middleware from `i` on calls `next` whatever it receives, each
   * of them runs exactly once, in registration order, and the walk reaches
   * route resolution.
   */
  lemma {:induction false} AllProceed<M>(mws: seq<M>, run: (M, Request) -> Step, req: Request, i: nat)
    requires i <= |mws|
    requires forall j, r :: i <= j < |mws| ==> run(mws[j], r).Next?
    decreases |mws| - i
    ensures Chain(mws, run, req, i).trace == Range(i, |mws|)
    ensures Chain(mws, run, req, i).end.Completed?
  {
    if i < |mws| {
      AllProceed(mws, run, run(mws[i], req).req, i + 1);
    }
  }

  /**
   * When middleware `k` withholds `next` on the request it receives, the walk
   * has run exactly middleware `0..k` and never reaches route resolution.
   */
  lemma StopAt<M>(mws: seq<M>, run: (M, Request) -> Step, req: Request, k: nat, r: Request, reply: Reply)
    requires k < |mws| && Reach(mws, run, req, k) == Some(r) && run(mws[k], r) == Halt(reply)
    ensures Chain(mws, run, req, 0) == Run(Range(0, k + 1), StoppedAt(k, reply))
  {
    ChainFrom(mws, run, req, k, r);
    RangeSnoc(0, k);
  }

  lemma {:induction false} EndFrom<M>(mws: seq<M>, run: (M, Request) -> Step, req: Request, i: nat, r: Request)
    requires i <= |mws| && Reach(mws, run, req, i) == Some(r)
    decreases |mws| - i
    ensures var e := Chain(mws, run, r, i).end;
      && (e.Completed? ==> Reach(mws, run, req, |mws|) == Some(e.req))
      && (e.StoppedAt? ==>
            && e.index < |mws| && Reach(mws, run, req, e.index).Some?
            && run(mws[e.index], Reach(mws, run, req, e.index).value) == Halt(e.reply))
  {
    if i < |mws| {
      match run(mws[i], r)
      case Next(r') =>
        assert Reach(mws, run, req, i + 1) == Some(r');
        EndFrom(mws, run, req, i + 1, r');
      case Halt(_) =>
    }
  }

  /** The walk reaches route resolution with `r` exactly when `r` is what the last middleware hands on. */
  lemma CompletesIff<M>(mws: seq<M>, run: (M, Request) -> Step, req: Request, r: Request)
    ensures Chain(mws, run, req, 0).end == Completed(r) <==> Reach(mws, run, req, |mws|) == Some(r)
  {
    EndFrom(mws, run, req, 0, req);
    if Reach(mws, run, req, |mws|) == Some(r) {
      ChainFrom(mws, run, req, |mws|, r);
    }
  }

  /** The walk stops at `k` with `reply` exactly when middleware `k` is reached and withholds `next` with it. */
  lemma StopsIff<M>(mws: seq<M>, run: (M, Request) -> Step, req: Request, k: nat, reply: Reply)
    ensures Chain(mws, run, req, 0).end == StoppedAt(k, reply) <==>
      (k < |mws| && Reach(mws, run, req, k).Some? && run(mws[k], Reach(mws, run, req, k).value) == Halt(reply))
  {
    EndFrom(mws, run, req, 0, req);
    if k < |mws| && Reach(mws, run, req, k).Some? && run(mws[k], Reach(mws, run, req, k).value) == Halt(reply) {
      StopAt(mws, run, req, k, Reach(mws, run, req, k).value, reply);
    }
  }

  /** What a dispatch ends in: a middleware's own answer, a handler call, or the 404 answer. */
  datatype Outcome<H> =
    | ShortCircuit(index: nat, reply: Reply)
    | Handled(handler: H, req: Request)
    | NotFound(status: int, body: JsonValue)

  /** The response once the router is done: the 404 answer written, or left as it was. */
  function AfterRouting<H>(s: Sent, o: Outcome<H>): Sent
  {
    if o.NotFound? then Applied(s, Send(Some(o.status), JsonPayload(o.body)), {}).0 else s
  }

  /** `{ error: `Cannot ${req.method} ${req.url}` }`, with the method as received. */
  function NotFoundBody(verb: string, url: string): JsonValue
  {
    JObj([("error", JStr("Cannot " + verb + " " + url))])
  }

  /**
   * Route resolution for the request the stack hands on: never a middleware's
   * answer; the registered handler, given the request, exactly when the
   * request's key is in the table; otherwise 404 naming the request line.
   */
  function Resolve<H>(routes: map<string, H>, req: Request): (o: Outcome<H>)
    ensures !o.ShortCircuit?
    ensures o.Handled? <==> RouteKey(req.httpMethod, req.url) in routes
    ensures o.Handled? ==> o.handler == routes[RouteKey(req.httpMethod, req.url)] && o.req == req
    ensures o.NotFound? ==> o.status == 404 && o.body == NotFoundBody(req.httpMethod, req.url)
  {
    match Lookup(routes, req.httpMethod, req.url)
    case Some(h) => Handled(h, req)
    case None => NotFound(404, NotFoundBody(req.httpMethod, req.url))
  }

  /**
   * The outcome of dispatching `req`: walk the stack, then resolve the route
   * once. A middleware's answer comes from a middleware that was reached and
   * withheld `next`; otherwise the stack was walked to the end and the
   * request the last middleware handed on is resolved.
   */
  function Dispatched<M, H>(routes: map<string, H>, mws: seq<M>, run: (M, Request) -> Step, req: Request): (o: Outcome<H>)
    ensures o.ShortCircuit? ==>
      && o.index < |mws| && Reach(mws, run, req, o.index).Some?
      && run(mws[o.index], Reach(mws, run, req, o.index).value) == Halt(o.reply)
    ensures !o.ShortCircuit? ==>
      Reach(mws, run, req, |mws|).Some? && o == Resolve(routes, Reach(mws, run, req, |mws|).value)
  {
    EndFrom(mws, run, req, 0, req);
    match Chain(mws, run, req, 0).end
    case StoppedAt(k, reply) => ShortCircuit(k, reply)
    case Completed(r) => Resolve(routes, r)
  }

  /**
   * A request that reaches route resolution matching a route registered with
   * a method and path without spaces is handed to exactly that route's handler.
   */
  lemma MatchingRequestIsHandled<M, H>(routes: map<string, H>, mws: seq<M>, run: (M, Request) -> Step,
                                       req: Request, verb: string, path: string, r: Request)
    requires ' ' !in verb && ' ' !in path && RouteKey(verb, path) in routes
    requires Reach(mws, run, req, |mws|) == Some(r)
    requires Lower(r.httpMethod) == Lower(verb) && r.url == path
    ensures Dispatched(routes, mws, run, req) == Handled(routes[RouteKey(verb, path)], r)
  {
    CompletesIff(mws, run, req, r);
    KeyMatches(verb, path, r.httpMethod, r.url);
  }

  /**
   * A request that reaches route resolution matching no route is answered 404
   * with `Cannot <METHOD> <url>`, the method as received; no handler is called.
   */
  lemma UnmatchedRequestIsNotFound<M, H>(routes: map<string, H>, mws: seq<M>, run: (M, Request) -> Step,
                                         req: Request, r: Request)
    requires Reach(mws, run, req, |mws|) == Some(r)
    requires RouteKey(r.httpMethod, r.url) !in routes
    ensures Dispatched(routes, mws, run, req) == NotFound(404, JObj([("error", JStr("Cannot " + r.httpMethod + " " + r.url))]))
  {
    CompletesIff(mws, run, req, r);
  }

  /** A middleware that withholds `next` ends the dispatch: no later middleware and no handler runs. */
  lemma StoppedRequestIsNotRouted<M, H>(routes: map<string, H>, mws: seq<M>, run: (M, Request) -> Step,
                                        req: Request, k: nat, r: Request, reply: Reply)
    requires k < |mws| && Reach(mws, run, req, k) == Some(r) && run(mws[k], r) == Halt(reply)
    ensures Dispatched(routes, mws, run, req) == ShortCircuit(k, reply)
    ensures Chain(mws, run, req, 0).trace == Range(0, k + 1)
  {
    StopAt(mws, run, req, k, r, reply);
  }

  /** The `Nespress` object: its route table and its middleware stack. */
  class App<M, H> {
    var routes: map<string, H>
    var middleware: seq<M>

    constructor ()
      ensures routes == map[] && middleware == []
    {
      routes := map[];
      middleware := [];
    }

    /** `route(method, path, handler)`: stores the handler under its key, replacing any earlier one. */
    method Route(verb: string, path: string, handler: H)
      modifies this`routes
      ensures routes == old(routes)[RouteKey(verb, path) := handler]
    {
      var key := RouteKey(verb, path);
      routes := routes[key := handler];
    }

    /** `beforeEach(fn)`: appends to the middleware stack. */
    method BeforeEach(fn: M)
      modifies this`middleware
      ensures middleware == old(middleware) + [fn]
    {
      middleware := middleware + [fn];
    }

    /**
     * The request listener: walks the stack from index 0, then resolves the
     * route once. On a miss it calls `res.status(404).json(...)`; otherwise it
     * leaves the response to the middleware or handler it reports.
     */
    method Dispatch(req: Request, run: (M, Request) -> Step, res: Response) returns (trace: seq<nat>, outcome: Outcome<H>)
      modifies res
      ensures trace == Chain(middleware, run, req, 0).trace
      ensures outcome == Dispatched(routes, middleware, run, req)
      ensures outcome.NotFound? ==> res.statusCode == 404
      ensures outcome.NotFound? && !old(res.finished) ==>
        && res.headers == old(res.headers)["Content-Type" := JsonType]
        && res.body == JsonText(outcome.body) && res.finished
      ensures outcome.NotFound? && old(res.finished) ==>
        res.headers == old(res.headers) && res.body == old(res.body) && res.finished
      ensures !outcome.NotFound? ==> unchanged(res)
      ensures Snapshot(res) == AfterRouting(old(Snapshot(res)), outcome)
    {
      var i: nat := 0;
      var cur := req;
      trace := [];
      while i < |middleware|
        invariant i <= |middleware|
        invariant Reach(middleware, run, req, i) == Some(cur)
        invariant trace == Range(0, i)
        invariant unchanged(res)
      {
        RangeSnoc(0, i);
        trace := trace + [i];
        match run(middleware[i], cur)
        case Next(r) =>
          cur := r;
          i := i + 1;
        case Halt(reply) =>
          StopAt(middleware, run, req, i, cur, reply);
          outcome := ShortCircuit(i, reply);
          return;
      }
      ChainFrom(middleware, run, req, i, cur);
      var key := RouteKey(cur.httpMethod, cur.url);
      if key in routes {
        outcome := Handled(routes[key], cur);
      } else {
        var body := NotFoundBody(cur.httpMethod, cur.url);
        var chained := res.Status(404);
        var _ := chained.Json(body);
        outcome := NotFound(404, body);
      }
    }
  }

  /** Registering two handlers under one key: only the last one answers. */
  method LastRegistrationWins(req: Request) returns (outcome: Outcome<nat>)
    requires Lower(req.httpMethod) == "get" && req.url == "/api/posts"
    ensures outcome == Handled(2, req)
  {
    var app := new App<nat, nat>();
    app.Route("get", "/api/posts", 1);
    app.Route("GET", "/api/posts", 2);
    assert Lower("GET") == "get";
    var res := new Response();
    var trace;
    trace, outcome := app.Dispatch(req, (m: nat, r: Request) => Next(r), res);
  }
}
