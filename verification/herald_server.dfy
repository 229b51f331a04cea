/**
 * Process start-up and the SSE binding (src/index.ts:128-164): the choice of
 * transport, the table of open sessions keyed by session id, and the router
 * that opens a session on `GET /sse`, forwards `POST /message?sessionId=...`
 * to the session's transport, and answers everything else itself.
 */
module HeraldServer {
  import opened Wrappers

  // ---- transport selection ----

  datatype Binding = Stdio | Sse(host: string, port: string)

  /**
   * `MCP_TRANSPORT`, `MCP_HOST` and `MCP_PORT` as read at start-up. Only the
   * exact value `sse` selects the SSE binding; an unset variable or any other
   * value selects stdio. The port stays the text it was given.
   */
  function SelectTransport(mode: Option<string>, host: Option<string>, port: Option<string>): (b: Binding)
    ensures b.Sse? <==> mode == Some("sse")
    ensures b.Stdio? <==> mode.None? || mode.value != "sse"
    ensures b.Sse? && host.None? ==> b.host == "0.0.0.0"
    ensures b.Sse? && host.Some? ==> b.host == host.value
    ensures b.Sse? && port.None? ==> b.port == "8000"
    ensures b.Sse? && port.Some? ==> b.port == port.value
  {
    if mode.GetOr("stdio") == "sse" then Sse(host.GetOr("0.0.0.0"), port.GetOr("8000")) else Stdio
  }

  // ---- requests and outcomes ----

  /** The SSE transport the SDK creates for one `GET /sse` response; it mints its own session id. */
  class Transport {
    const sessionId: string

    constructor (sessionId: string)
      ensures this.sessionId == sessionId
    {
      this.sessionId := sessionId;
    }
  }

  /** The parts of the request URL the router reads: its path and the `sessionId` query parameter. */
  datatype Url = Url(pathname: string, sessionIdParam: Option<string>)

  datatype HttpRequest = HttpRequest(verb: string, url: Option<Url>)

  datatype RouteOutcome =
    | MissingUrl                     // 400, empty body
    | Opened(transport: Transport)   // stored in the table and connected to a fresh MCP server
    | UnknownSession                 // 400 "Unknown session"
    | Forwarded(transport: Transport) // handed to that transport's handlePostMessage
    | NotFound                       // 404 "Not Found"

  /** The status and body the router writes itself; the SDK answers opened and forwarded requests. */
  function Answer(o: RouteOutcome): (a: Option<(nat, string)>)
    ensures a.None? <==> o.Opened? || o.Forwarded?
    ensures o == UnknownSession ==> a == Some((400, "Unknown session"))
    ensures o == MissingUrl ==> a == Some((400, ""))
    ensures o == NotFound ==> a == Some((404, "Not Found"))
  {
    match o
    case MissingUrl => Some((400, ""))
    case UnknownSession => Some((400, "Unknown session"))
    case NotFound => Some((404, "Not Found"))
    case _ => None
  }

  predicate IsOpen(req: HttpRequest)
  {
    req.url.Some? && req.verb == "GET" && req.url.value.pathname == "/sse"
  }

  predicate IsPost(req: HttpRequest)
  {
    req.url.Some? && req.verb == "POST" && req.url.value.pathname == "/message"
  }

  /** `url.searchParams.get('sessionId') ?? ''`: a missing parameter is looked up as the empty id. */
  function PostedId(req: HttpRequest): string
    requires req.url.Some?
  {
    req.url.value.sessionIdParam.GetOr("")
  }

  /**
   * One request against the session table: the outcome and the table after it.
   * `minted` is the transport the SDK creates if the request opens a session.
   */
  function Step(table: map<string, Transport>, req: HttpRequest, minted: Transport): (r: (RouteOutcome, map<string, Transport>))
    ensures r.0 == MissingUrl <==> req.url.None?
    ensures r.0.Opened? <==> IsOpen(req)
    ensures r.0.Opened? ==> r.0.transport == minted && r.1 == table[minted.sessionId := minted]
    ensures !r.0.Opened? ==> r.1 == table
    ensures r.0.Forwarded? <==> IsPost(req) && PostedId(req) in table
    ensures r.0.Forwarded? ==> r.0.transport == table[PostedId(req)]
    ensures r.0 == UnknownSession <==> IsPost(req) && PostedId(req) !in table
    ensures r.0 == NotFound <==> req.url.Some? && !IsOpen(req) && !IsPost(req)
  {
    if req.url.None? then (MissingUrl, table)
    else if IsOpen(req) then (Opened(minted), table[minted.sessionId := minted])
    else if IsPost(req) then
      var id := PostedId(req);
      if id in table then (Forwarded(table[id]), table) else (UnknownSession, table)
    else (NotFound, table)
  }

  /** Every transport is stored under its own session id. */
  predicate WellKeyed(table: map<string, Transport>)
  {
    forall id :: id in table ==> table[id].sessionId == id
  }

  /** Closing a response removes exactly its session id. */
  function Closed(table: map<string, Transport>, id: string): (t: map<string, Transport>)
    ensures id !in t
    ensures forall other :: other != id ==> (other in t <==> other in table)
    ensures forall other :: other != id && other in t ==> t[other] == table[other]
  {
    table - {id}
  }

  /** Requests and closes keep every transport under its own id, so a posted message
      only ever reaches the transport whose session id it names. */
  lemma StepKeepsWellKeyed(table: map<string, Transport>, req: HttpRequest, minted: Transport, id: string)
    requires WellKeyed(table)
    ensures WellKeyed(Step(table, req, minted).1)
    ensures WellKeyed(Closed(table, id))
    ensures Step(table, req, minted).0.Forwarded? ==> Step(table, req, minted).0.transport.sessionId == PostedId(req)
  {
  }

  // ---- any interleaving of sessions ----

  /** What the server sees: a request (with the transport minted for it, used only by
      `GET /sse`), or the close of the response that carries session `id`. */
  datatype Event = Request(req: HttpRequest, minted: Transport) | ResponseClosed(id: string)

  function Apply(table: map<string, Transport>, e: Event): map<string, Transport>
  {
    match e
    case Request(req, minted) => Step(table, req, minted).1
    case ResponseClosed(id) => Closed(table, id)
  }

  /** The table after a sequence of events, starting from the empty table. */
  function Replay(es: seq<Event>): map<string, Transport>
  {
    if es == [] then map[] else Apply(Replay(es[..|es| - 1]), es[|es| - 1])
  }

  /** The transport of the latest event that opened or closed session `id`, if that event opened it. */
  function Latest(es: seq<Event>, id: string): Option<Transport>
  {
    if es == [] then None
    else
      var e := es[|es| - 1];
      if e.Request? && IsOpen(e.req) && e.minted.sessionId == id then Some(e.minted)
      else if e.ResponseClosed? && e.id == id then None
      else Latest(es[..|es| - 1], id)
  }

  /** After any sequence of events, session `id` is in the table exactly when the latest
      event about it opened it, and it maps to the transport that event created. */
  lemma {:induction false} ReplayIsLatest(es: seq<Event>, id: string)
    ensures id in Replay(es) <==> Latest(es, id).Some?
    ensures id in Replay(es) ==> Replay(es)[id] == Latest(es, id).value
  {
    if es != [] {
      ReplayIsLatest(es[..|es| - 1], id);
    }
  }

  /**
   * For any interleaving of sessions, a message posted for session `id` is
   * forwarded to the transport of the latest `GET /sse` that opened `id`, unless
   * that session's response has closed since, in which case it is rejected as
   * unknown and reaches no transport.
   */
  lemma PostAfterEvents(es: seq<Event>, req: HttpRequest, minted: Transport)
    requires IsPost(req)
    ensures var o := Step(Replay(es), req, minted).0;
      && (Latest(es, PostedId(req)).Some? ==> o == Forwarded(Latest(es, PostedId(req)).value))
      && (Latest(es, PostedId(req)).None? ==> o == UnknownSession)
  {
    ReplayIsLatest(es, PostedId(req));
  }

  /** Opening a session and closing its response leaves a post to it rejected. */
  lemma PostAfterCloseIsRejected(es: seq<Event>, open: HttpRequest, t: Transport, post: HttpRequest, m: Transport)
    requires IsOpen(open) && IsPost(post) && PostedId(post) == t.sessionId
    ensures Step(Replay(es + [Request(open, t)]), post, m).0 == Forwarded(t)
    ensures Step(Replay(es + [Request(open, t), ResponseClosed(t.sessionId)]), post, m).0 == UnknownSession
  {
    var afterOpen := es + [Request(open, t)];
    var afterClose := afterOpen + [ResponseClosed(t.sessionId)];
    assert es + [Request(open, t), ResponseClosed(t.sessionId)] == afterClose;
    assert afterOpen[..|afterOpen| - 1] == es;
    assert afterClose[..|afterClose| - 1] == afterOpen;
    PostAfterEvents(afterOpen, post, m);
    PostAfterEvents(afterClose, post, m);
  }

  // ---- the server object ----

  /** The `transports` map of the SSE binding and the request handler that uses it. */
  class SseServer {
    var transports: map<string, Transport>

    ghost predicate Valid()
      reads this
    {
      WellKeyed(transports)
    }

    constructor ()
      ensures Valid() && transports == map[]
    {
      transports := map[];
    }

    /** `transports.set(transport.sessionId, transport)`: an equal id is overwritten. */
    method Open(t: Transport)
      requires Valid()
      modifies this
      ensures Valid()
      ensures transports == old(transports)[t.sessionId := t]
    {
      transports := transports[t.sessionId := t];
    }

    /** The response's close listener: `transports.delete(transport.sessionId)`. */
    method Close(id: string)
      requires Valid()
      modifies this
      ensures Valid()
      ensures transports == Closed(old(transports), id)
    {
      transports := transports - {id};
    }

    /** The request handler; `minted` is the transport created if the request is `GET /sse`. */
    method Route(req: HttpRequest, minted: Transport) returns (o: RouteOutcome)
      requires Valid()
      modifies this
      ensures Valid()
      ensures (o, transports) == Step(old(transports), req, minted)
      ensures o.Forwarded? ==> o.transport.sessionId == PostedId(req)
    {
      if req.url.None? {
        return MissingUrl;
      }
      var url := req.url.value;
      if req.verb == "GET" && url.pathname == "/sse" {
        Open(minted);
        o := Opened(minted);
      } else if req.verb == "POST" && url.pathname == "/message" {
        var sessionId := url.sessionIdParam.GetOr("");
        if sessionId !in transports {
          o := UnknownSession;
        } else {
          o := Forwarded(transports[sessionId]);
        }
      } else {
        o := NotFound;
      }
    }
  }
}
