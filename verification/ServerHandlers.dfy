/** Request and event execution on the server: `run_api_request`, `run_event` and the packets they build. */
module ServerHandlers {
  import opened Wrappers
  import opened Bytes
  import opened Json
  import opened Attachment
  import opened Packet

  /** `ApiError` carries the same four fields as the payload it turns into. */
  type ApiError = ErrorPayload

  datatype ApiContext = ApiContext(
    connectionId: string, requestId: u64, route: string, params: Json,
    attachments: seq<FileAttachment>, metadata: Json, authContext: Option<Object>)

  datatype EventContext = EventContext(
    connectionId: string, eventId: u64, name: string, data: Object,
    attachments: seq<FileAttachment>, metadata: Json, authContext: Option<Object>)

  /** How a user handler ends; a panic is caught. */
  datatype HandlerResult = Returned(value: Json) | Refused(error: ApiError) | Panicked

  datatype ExceptionContext = ExceptionContext(
    connectionId: string, requestId: u64, target: string, messageKind: string, error: ApiError)

  type Filter = ApiContext -> Result<ApiContext, ApiError>

  datatype Server = Server(
    filters: seq<Filter>,
    routes: map<string, ApiContext -> HandlerResult>,
    eventHandlers: map<string, EventContext -> HandlerResult>,
    exceptionHandler: Option<ExceptionContext -> ErrorPayload>)

  function NotFound(message: string): ApiError {
    ErrorPayload("not_found", message, 404, None)
  }

  function Internal(message: string): ApiError {
    ErrorPayload("internal_error", message, 500, None)
  }

  function MapException(s: Server, ctx: ExceptionContext): ErrorPayload {
    if s.exceptionHandler.Some? then s.exceptionHandler.value(ctx) else ctx.error
  }

  // ----- Packets -----

  function OkResponse(id: u64, data: Json): PacketBody {
    ApiResponse(id, true, 200, data, None, Obj(map[]))
  }

  function ErrorResponse(id: u64, status: u16, payload: ErrorPayload): PacketBody {
    ApiResponse(id, false, status, Obj(map[]), Some(payload), Obj(map[]))
  }

  function FrameError(code: string, message: string): PacketBody {
    ErrorResponse(0, 413, ErrorPayload(code, message, 413, None))
  }

  function ServiceBusy(id: u64): PacketBody {
    ErrorResponse(id, 503, ErrorPayload("service_busy", "rate limit exceeded", 503, None))
  }

  function SilentAck(id: u64): PacketBody {
    EventAck(id, true, Obj(map[]), None)
  }

  function ApiErrorPacket(s: Server, conn: string, id: u64, route: string, error: ApiError): PacketBody {
    ErrorResponse(id, error.status, MapException(s, ExceptionContext(conn, id, route, "api", error)))
  }

  // ----- What happens to a request -----

  /** The fate of a request: refused by a filter, no such route, or handed to the route's handler. */
  datatype Fate =
    | Filtered(error: ApiError)
    | NoHandler
    | Executed(result: HandlerResult)

  /** The filters in registration order, each fed the context the previous one produced. */
  function Filtering(filters: seq<Filter>, ctx: ApiContext): Result<ApiContext, ApiError> {
    if filters == [] then Ok(ctx)
    else
      var mid :- Filtering(filters[..|filters| - 1], ctx);
      filters[|filters| - 1](mid)
  }

  function ContextOf(conn: string, auth: Option<Object>, request: PacketBody): ApiContext
    requires request.ApiRequest?
  {
    ApiContext(conn, request.requestId, request.route, request.params, request.attachments,
               request.metadata, auth)
  }

  function ApiFate(s: Server, conn: string, auth: Option<Object>, request: PacketBody): Fate
    requires request.ApiRequest?
  {
    match Filtering(s.filters, ContextOf(conn, auth, request))
    case Err(e) => Filtered(e)
    case Ok(ctx) => if ctx.route in s.routes then Executed(s.routes[ctx.route](ctx)) else NoHandler
  }

  /** The error a fate turns into, if any. */
  function FateError(f: Fate): Option<ApiError> {
    match f
    case Filtered(e) => Some(e)
    case NoHandler => Some(NotFound("route not found"))
    case Executed(Refused(e)) => Some(e)
    case Executed(Panicked) => Some(Internal("handler panicked"))
    case Executed(Returned(_)) => None
  }

  function ApiReply(s: Server, conn: string, request: PacketBody, f: Fate): PacketBody
    requires request.ApiRequest?
  {
    match FateError(f)
    case Some(e) => ApiErrorPacket(s, conn, request.requestId, request.route, e)
    case None => OkResponse(request.requestId, f.result.value)
  }

  lemma {:induction false} FilterFailureSticks(filters: seq<Filter>, i: nat, ctx: ApiContext)
    requires i <= |filters| && Filtering(filters[..i], ctx).Err?
    ensures Filtering(filters, ctx) == Filtering(filters[..i], ctx)
    decreases |filters|
  {
    if i == |filters| {
      assert filters[..i] == filters;
    } else {
      var front := filters[..|filters| - 1];
      assert front[..i] == filters[..i];
      FilterFailureSticks(front, i, ctx);
    }
  }

  /**
   * `run_api_request`: the loop rebinds the context through the filters, the route of the resulting
   * context selects the handler, and the reply is built with the id and route of the request itself.
   */
  method RunApiRequest(s: Server, conn: string, auth: Option<Object>, request: PacketBody)
    returns (reply: PacketBody, executions: nat)
    requires request.ApiRequest?
    ensures reply == ApiReply(s, conn, request, ApiFate(s, conn, auth, request))
    ensures executions == if ApiFate(s, conn, auth, request).Executed? then 1 else 0
  {
    executions := 0;
    var ctx := ContextOf(conn, auth, request);
    ghost var start := ctx;
    for i := 0 to |s.filters|
      invariant Filtering(s.filters[..i], start) == Ok(ctx)
    {
      var next := s.filters[i](ctx);
      assert s.filters[..i + 1][..i] == s.filters[..i];
      if next.Err? {
        FilterFailureSticks(s.filters, i + 1, start);
        return ApiErrorPacket(s, conn, request.requestId, request.route, next.error), executions;
      }
      ctx := next.value;
    }
    assert s.filters[..|s.filters|] == s.filters;
    if ctx.route !in s.routes {
      return ApiErrorPacket(s, conn, request.requestId, request.route, NotFound("route not found")),
             executions;
    }
    var result := s.routes[ctx.route](ctx);
    executions := executions + 1;
    match result {
      case Returned(data) => reply := OkResponse(request.requestId, data);
      case Refused(error) =>
        reply := ApiErrorPacket(s, conn, request.requestId, request.route, error);
      case Panicked =>
        reply := ApiErrorPacket(s, conn, request.requestId, request.route, Internal("handler panicked"));
    }
  }

  /**
   * Whatever the filters did to the context, the reply carries the request's own id; it is ok exactly
   * when a handler ran and returned a value, and then it carries that value.
   */
  lemma ApiReplyMeaning(s: Server, conn: string, auth: Option<Object>, request: PacketBody)
    requires request.ApiRequest?
    ensures var f := ApiFate(s, conn, auth, request);
            var reply := ApiReply(s, conn, request, f);
            && reply.ApiResponse? && reply.requestId == request.requestId
            && (reply.ok <==> f.Executed? && f.result.Returned?)
            && (reply.ok ==> reply.data == f.result.value && reply.error.None?)
            && (!reply.ok ==> reply.error.Some?)
  {
  }

  // ----- What the handler is given -----

  /** Without filters, the handler of the request's route runs on the fields of the request, one by one. */
  lemma UnfilteredRequest(
    s: Server, conn: string, auth: Option<Object>, id: u64, route: string, params: Json,
    atts: seq<FileAttachment>, metadata: Json)
    requires s.filters == []
    ensures var request := ApiRequest(id, route, params, atts, metadata);
            ApiFate(s, conn, auth, request)
            == if route !in s.routes then NoHandler
               else Executed(s.routes[route](ApiContext(conn, id, route, params, atts, metadata, auth)))
  {
  }

  /** Filters run in registration order, each on what the one before it returned. */
  lemma {:induction false} FiltersCompose(a: seq<Filter>, b: seq<Filter>, ctx: ApiContext)
    ensures Filtering(a + b, ctx)
            == match Filtering(a, ctx)
               case Err(e) => Err(e)
               case Ok(mid) => Filtering(b, mid)
  {
    if b == [] {
      assert a + b == a;
    } else {
      var front := b[..|b| - 1];
      assert (a + b)[..|a + b| - 1] == a + front;
      FiltersCompose(a, front, ctx);
    }
  }

  lemma OneFilter(f: Filter, ctx: ApiContext)
    ensures Filtering([f], ctx) == f(ctx)
  {
    assert [f][..0] == [];
    assert Filtering([], ctx) == Ok(ctx);
  }

  /**
   * Two filters: the first is given the request's own context, the second what the first returned, and the
   * handler what the second returned; what refuses first is what the request is refused with.
   */
  lemma TwoFilters(
    s: Server, conn: string, auth: Option<Object>, id: u64, route: string, params: Json,
    atts: seq<FileAttachment>, metadata: Json, f: Filter, g: Filter)
    requires s.filters == [f, g]
    ensures var request := ApiRequest(id, route, params, atts, metadata);
            var first := f(ApiContext(conn, id, route, params, atts, metadata, auth));
            ApiFate(s, conn, auth, request)
            == if first.Err? then Filtered(first.error)
               else
                 var second := g(first.value);
                 if second.Err? then Filtered(second.error)
                 else if second.value.route !in s.routes then NoHandler
                 else Executed(s.routes[second.value.route](second.value))
  {
    var ctx := ApiContext(conn, id, route, params, atts, metadata, auth);
    assert [f, g] == [f] + [g];
    FiltersCompose([f], [g], ctx);
    OneFilter(f, ctx);
    if f(ctx).Ok? {
      OneFilter(g, f(ctx).value);
    }
  }

  /** What every filter leaves alone reaches the handler as the request carried it. */
  lemma {:induction false} KeptFieldReachesHandler<T>(filters: seq<Filter>, field: ApiContext -> T, ctx: ApiContext)
    requires forall i, c :: 0 <= i < |filters| && filters[i](c).Ok? ==> field(filters[i](c).value) == field(c)
    ensures Filtering(filters, ctx).Ok? ==> field(Filtering(filters, ctx).value) == field(ctx)
  {
    if filters == [] {
    } else {
      var front := filters[..|filters| - 1];
      forall i, c | 0 <= i < |front| && front[i](c).Ok?
        ensures field(front[i](c).value) == field(c)
      {
        assert front[i] == filters[i];
      }
      KeptFieldReachesHandler(front, field, ctx);
    }
  }

  /** An error as a reply carries it: as it is, or as the exception handler turns it out. */
  function Reported(s: Server, error: ApiError, conn: string, id: u64, target: string, kind: string): ErrorPayload {
    if s.exceptionHandler.None? then error
    else s.exceptionHandler.value(ExceptionContext(conn, id, target, kind, error))
  }

  /**
   * Every failure of a request as the client sees it: the status of the failure itself, and the error as the
   * exception handler, told connection, id, route and kind, turns it out.
   */
  lemma RequestFailures(s: Server, conn: string, request: PacketBody, f: Fate)
    requires request.ApiRequest?
    ensures var reply, id, route := ApiReply(s, conn, request, f), request.requestId, request.route;
            && (f.Filtered? ==>
                  reply.status == f.error.status && reply.error == Some(Reported(s, f.error, conn, id, route, "api")))
            && (f.NoHandler? ==>
                  var e := ErrorPayload("not_found", "route not found", 404, None);
                  reply.status == 404 && reply.error == Some(Reported(s, e, conn, id, route, "api")))
            && (f.Executed? && f.result.Refused? ==>
                  && reply.status == f.result.error.status
                  && reply.error == Some(Reported(s, f.result.error, conn, id, route, "api")))
            && (f.Executed? && f.result.Panicked? ==>
                  var e := ErrorPayload("internal_error", "handler panicked", 500, None);
                  reply.status == 500 && reply.error == Some(Reported(s, e, conn, id, route, "api")))
  {
  }

  // ----- Events -----

  /** Filters do not apply to events; the handler is found by the event's name. */
  function EventFate(s: Server, conn: string, auth: Option<Object>, event: PacketBody): Fate
    requires event.EventEmit?
  {
    if event.name !in s.eventHandlers then NoHandler
    else
      Executed(s.eventHandlers[event.name](
        EventContext(conn, event.eventId, event.name, event.payload, event.attachments,
                     event.metadata, auth)))
  }

  /** A missing handler is reported as it is; other errors pass through the exception handler. */
  function EventReply(s: Server, conn: string, event: PacketBody, f: Fate): PacketBody
    requires event.EventEmit?
  {
    match f
    case Executed(Returned(receipt)) => EventAck(event.eventId, true, receipt, None)
    case Executed(Refused(e)) =>
      EventAck(event.eventId, false, Obj(map[]),
               Some(MapException(s, ExceptionContext(conn, event.eventId, event.name, "event", e))))
    case Executed(Panicked) =>
      EventAck(event.eventId, false, Obj(map[]),
               Some(MapException(s, ExceptionContext(conn, event.eventId, event.name, "event",
                                                     Internal("event handler panicked")))))
    case _ => EventAck(event.eventId, false, Obj(map[]), Some(NotFound("event handler not found")))
  }

  lemma EventReplyMeaning(s: Server, conn: string, auth: Option<Object>, event: PacketBody)
    requires event.EventEmit?
    ensures var f := EventFate(s, conn, auth, event);
            var reply := EventReply(s, conn, event, f);
            && reply.EventAck? && reply.eventId == event.eventId
            && (reply.ok <==> f.Executed? && f.result.Returned?)
            && (reply.ok ==> reply.receipt == f.result.value)
            && (!reply.ok ==> reply.error.Some?)
  {
  }

  /** The event's handler runs on the fields of the event, one by one; filters have no say. */
  lemma EventHandlerInput(
    s: Server, conn: string, auth: Option<Object>, id: u64, name: string, data: Object,
    atts: seq<FileAttachment>, metadata: Json, expectAck: bool)
    ensures EventFate(s, conn, auth, EventEmit(id, name, data, atts, metadata, expectAck))
            == if name !in s.eventHandlers then NoHandler
               else Executed(s.eventHandlers[name](EventContext(conn, id, name, data, atts, metadata, auth)))
  {
  }

  /** Every failure of an event as the client sees it; the exception handler does not see a missing handler. */
  lemma EventFailures(s: Server, conn: string, event: PacketBody, f: Fate)
    requires event.EventEmit? && !f.Filtered?
    ensures var reply, id, name := EventReply(s, conn, event, f), event.eventId, event.name;
            && (f.NoHandler? ==> reply.error == Some(ErrorPayload("not_found", "event handler not found", 404, None)))
            && (f.Executed? && f.result.Refused? ==>
                  reply.error == Some(Reported(s, f.result.error, conn, id, name, "event")))
            && (f.Executed? && f.result.Panicked? ==>
                  var e := ErrorPayload("internal_error", "event handler panicked", 500, None);
                  reply.error == Some(Reported(s, e, conn, id, name, "event")))
  {
  }
}
