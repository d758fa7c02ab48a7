/**
 * The request and response objects the router works on, and the three helpers
 * it attaches to every response: `status`, `json` and `sendFile`.
 */
module Http {
  import opened Wrappers

  /** A JSON value; serialisation to text is not modelled, the body is the value itself. */
  datatype JsonValue =
    | JNull
    | JBool(b: bool)
    | JNum(n: int)
    | JStr(s: string)
    | JArr(items: seq<JsonValue>)
    | JObj(members: seq<(string, JsonValue)>)

  /**
   * An incoming request: the request line, the headers (names lower-cased, as
   * Node delivers them), the body once parsed (absent when no parser set it),
   * and the `userId` extension field a middleware may attach.
   */
  datatype Request = Request(
    httpMethod: string,   // `req.method`
    url: string,
    headers: map<string, string>,
    body: Option<map<string, string>>,
    userId: Option<int>)

  /** What a finished response carries. */
  datatype Body = NoBody | JsonText(data: JsonValue) | FileStream(path: string)

  /** Why a response helper throws or rejects. */
  datatype ResponseError =
    | HeadersSent          // Node's ERR_HTTP_HEADERS_SENT: the response is already finished
    | OpenFailed(path: string)

  /** The body of a reply that a middleware or a handler produces. */
  datatype Payload = JsonPayload(data: JsonValue) | FilePayload(path: string, mime: Option<string>)

  /**
   * What a middleware or handler does to the response: `Stall` writes nothing,
   * `Send` optionally calls `status` and then `json` or `sendFile`.
   */
  datatype Reply = Stall | Send(status: Option<int>, payload: Payload)

  /** A middleware either calls `next` (with the request as it left it) or does not. */
  datatype Step = Next(req: Request) | Halt(reply: Reply)

  const JsonType: string := "application/json"

  /** JavaScript truthiness of an optional string: present and not empty. */
  predicate Truthy(s: Option<string>)
  {
    s.Some? && s.value != ""
  }

  /** The response object, with the helpers the router attaches to it. */
  class Response {
    var statusCode: int
    var headers: map<string, string>
    var body: Body
    var finished: bool

    /** A fresh response: status 200 (Node's default), no headers, nothing sent. */
    constructor ()
      ensures statusCode == 200 && headers == map[] && body == NoBody && !finished
    {
      statusCode := 200;
      headers := map[];
      body := NoBody;
      finished := false;
    }

    /** `res.status(code)`: sets the status code and returns the same response for chaining. */
    method Status(code: int) returns (r: Response)
      modifies this`statusCode
      ensures r == this && statusCode == code
    {
      statusCode := code;
      r := this;
    }

    /**
     * `res.json(data)`: sets Content-Type to JSON and ends the response with
     * `data`. On a finished response `setHeader` throws and nothing changes.
     */
    method Json(data: JsonValue) returns (r: Result<(), ResponseError>)
      modifies this`headers, this`body, this`finished
      ensures r == (if old(finished) then Failure(HeadersSent) else Success(()))
      ensures old(finished) ==> unchanged(this)
      ensures !old(finished) ==> headers == old(headers)["Content-Type" := JsonType]
      ensures !old(finished) ==> body == JsonText(data) && finished
    {
      if finished {
        return Failure(HeadersSent);
      }
      headers := headers["Content-Type" := JsonType];
      body := JsonText(data);
      finished := true;
      r := Success(());
    }

    /**
     * `res.sendFile(path, mime)`: opens the file first and rejects, having set
     * nothing, when that fails (`openable` stands for the file system); then
     * sets Content-Type only when a mime type is given, and streams the file.
     * On a finished response `setHeader` throws when a mime type is given;
     * without one nothing throws, the stream is piped into the ended response
     * and the helper fulfils, leaving the response as it was.
     */
    method SendFile(path: string, mime: Option<string>, openable: set<string>)
      returns (r: Result<(), ResponseError>)
      modifies this`headers, this`body, this`finished
      ensures path !in openable ==> r == Failure(OpenFailed(path)) && unchanged(this)
      ensures path in openable && old(finished) ==>
        && r == (if Truthy(mime) then Failure(HeadersSent) else Success(()))
        && unchanged(this)
      ensures path in openable && !old(finished) ==>
        && r == Success(())
        && headers == (if Truthy(mime) then old(headers)["Content-Type" := mime.value] else old(headers))
        && body == FileStream(path) && finished
    {
      if path !in openable {
        return Failure(OpenFailed(path));
      }
      if finished {
        return if Truthy(mime) then Failure(HeadersSent) else Success(());
      }
      if Truthy(mime) {
        headers := headers["Content-Type" := mime.value];
      }
      body := FileStream(path);
      finished := true;
      r := Success(());
    }
  }

  /** The observable state of a response, as a value. */
  datatype Sent = Sent(statusCode: int, headers: map<string, string>, body: Body, finished: bool)

  function Snapshot(res: Response): Sent
    reads res
  {
    Sent(res.statusCode, res.headers, res.body, res.finished)
  }

  /**
   * What carrying out a reply does to a response in state `s`: the new state
   * and whether the helper threw (`json`) or rejected (`sendFile`).
   */
  function Applied(s: Sent, reply: Reply, openable: set<string>): (o: (Sent, Result<(), ResponseError>))
    ensures reply.Stall? ==> o == (s, Success(()))
    ensures reply.Send? ==>
      o.0.statusCode == (if reply.status.Some? then reply.status.value else s.statusCode)
    ensures reply.Send? && reply.payload.JsonPayload? ==>
      if s.finished then
        o.1 == Failure(HeadersSent) && o.0 == s.(statusCode := o.0.statusCode)
      else
        && o.1 == Success(())
        && o.0.headers == s.headers["Content-Type" := JsonType]
        && o.0.body == JsonText(reply.payload.data) && o.0.finished
    ensures reply.Send? && reply.payload.FilePayload? ==>
      var p := reply.payload;
      if p.path !in openable then
        o.1 == Failure(OpenFailed(p.path)) && o.0 == s.(statusCode := o.0.statusCode)
      else if s.finished then
        && o.1 == (if Truthy(p.mime) then Failure(HeadersSent) else Success(()))
        && o.0 == s.(statusCode := o.0.statusCode)
      else
        && o.1 == Success(()) && o.0.body == FileStream(p.path) && o.0.finished
        && o.0.headers == (if Truthy(p.mime) then s.headers["Content-Type" := p.mime.value] else s.headers)
  {
    match reply
    case Stall => (s, Success(()))
    case Send(status, payload) =>
      var s1 := if status.Some? then s.(statusCode := status.value) else s;
      match payload
      case JsonPayload(data) =>
        if s1.finished then (s1, Failure(HeadersSent))
        else (s1.(headers := s1.headers["Content-Type" := JsonType], body := JsonText(data), finished := true), Success(()))
      case FilePayload(path, mime) =>
        if path !in openable then (s1, Failure(OpenFailed(path)))
        else if s1.finished then (s1, if Truthy(mime) then Failure(HeadersSent) else Success(()))
        else
          var h := if Truthy(mime) then s1.headers["Content-Type" := mime.value] else s1.headers;
          (s1.(headers := h, body := FileStream(path), finished := true), Success(()))
  }

  /** Carries out a reply on a response: `status` when one is given, then `json` or `sendFile`. */
  method Perform(res: Response, reply: Reply, openable: set<string>) returns (r: Result<(), ResponseError>)
    modifies res
    ensures (Snapshot(res), r) == Applied(old(Snapshot(res)), reply, openable)
  {
    match reply
    case Stall =>
      r := Success(());
    case Send(status, payload) =>
      if status.Some? {
        var _ := res.Status(status.value);
      }
      match payload
      case JsonPayload(data) =>
        r := res.Json(data);
      case FilePayload(path, mime) =>
        r := res.SendFile(path, mime, openable);
  }
}
