/** The `POST /long-poll/{evaluation_id}` endpoint: deriving the client
    address, choosing the timeout, delegating to the long-polling service
    and turning failures into HTTP responses. */
module LongPollApi {
  import opened Wrappers
  import opened Strings
  import opened Jobs
  import opened Polling

  const ForwardedFor: string := "x-forwarded-for"
  const Unknown: string := "unknown"
  const InternalError: HttpError := HttpError(500, "Internal server error")

  /** The connection's peer: its `host` attribute, and its first element when
      it is a non-empty tuple. */
  datatype Peer = Peer(host: Option<string>, tupleHead: Option<string>)

  /** What the endpoint reads from the request: the headers (names in lower
      case) and the peer; `Unreadable` stands for a request whose inspection
      raises. */
  datatype Request = Request(headers: map<string, string>, client: Option<Peer>) | Unreadable

  /** The client address: the first entry of a non-empty `X-Forwarded-For`
      header, stripped; otherwise the peer's non-empty host, else its tuple
      head; `"unknown"` when there is no peer or the request cannot be read. */
  function ClientIp(req: Request): (ip: string)
    ensures Forwarded(req) == "" && (req.Unreadable? || req.client.None?) ==> ip == Unknown
    ensures (Forwarded(req) == "" && req.Request? && req.client.Some? && req.client.value.host.Some?
             && req.client.value.host.value != "") ==> ip == req.client.value.host.value
    ensures (Forwarded(req) == "" && req.Request? && req.client.Some?
             && (req.client.value.host.None? || req.client.value.host.value == "")) ==>
              ip == req.client.value.tupleHead.GetOr(Unknown)
  {
    match req
    case Unreadable => Unknown
    case Request(headers, client) =>
      if Forwarded(req) != "" then Strip(BeforeFirst(Forwarded(req), ','))
      else match client
        case None => Unknown
        case Some(peer) =>
          if peer.host.Some? && peer.host.value != "" then peer.host.value
          else if peer.tupleHead.Some? then peer.tupleHead.value
          else Unknown
  }

  /** The `X-Forwarded-For` header, empty when absent. */
  function Forwarded(req: Request): (h: string)
    ensures req.Request? && ForwardedFor in req.headers ==> h == req.headers[ForwardedFor]
    ensures (req.Unreadable? || ForwardedFor !in req.headers) ==> h == ""
  {
    if req.Request? && ForwardedFor in req.headers then req.headers[ForwardedFor] else ""
  }

  /** An address taken from the header is a single entry: no comma and no
      surrounding white space. */
  lemma ForwardedIpIsOneEntry(req: Request)
    requires Forwarded(req) != ""
    ensures ',' !in ClientIp(req)
    ensures Strip(ClientIp(req)) == ClientIp(req)
  {
    var first := BeforeFirst(Forwarded(req), ',');
    StripContained(first, StrBlank);
    StripIdempotent(first, StrBlank);
    if ',' in Strip(first) {
      var k :| 0 <= k < |Strip(first)| && Strip(first)[k] == ',';
      ContainsCharIn(first, Strip(first), k);
    }
  }

  /** With several entries, the first one is used. */
  lemma ForwardedFirstEntry(req: Request, first: string, rest: string)
    requires req.Request? && ForwardedFor in req.headers
    requires req.headers[ForwardedFor] == first + [','] + rest && ',' !in first
    ensures ClientIp(req) == Strip(first)
  {
    var s := first + [','] + rest;
    var r := BeforeFirst(s, ',');
    assert s[|first|] == ',';
    assert forall i :: 0 <= i < |first| ==> s[i] == first[i] && s[i] != ',';
    assert r == first;
  }

  /** A single entry is used as it is, stripped. */
  lemma ForwardedSingleEntry(req: Request)
    requires Forwarded(req) != "" && ',' !in Forwarded(req)
    ensures ClientIp(req) == Strip(Forwarded(req))
  {
    var s := Forwarded(req);
    var r := BeforeFirst(s, ',');
    assert forall i :: 0 <= i < |s| ==> s[i] != ',';
    assert r == s[..|s|] == s;
  }

  /** The requested timeout, validated like the query parameter (`ge=1`),
      or the configured default when none is given. */
  function ResolveTimeout(query: Option<int>, defaultTimeout: int): (r: Result<int, HttpError>)
    ensures query.None? ==> r == Ok(defaultTimeout)
    ensures query.Some? ==> (r.Ok? <==> query.value >= 1)
    ensures query.Some? && r.Ok? ==> r.value == query.value
    ensures r.Err? ==> r.error.status == 422
    ensures r.Ok? && defaultTimeout >= 1 ==> r.value >= 1
  {
    match query
    case None => Ok(defaultTimeout)
    case Some(t) => if t >= 1 then Ok(t) else Err(HttpError(422, "Input should be greater than or equal to 1"))
  }

  /** A failure inside the endpoint: an `HTTPException`, or anything else. */
  datatype Fault = HttpFault(error: HttpError) | InternalFault(message: string)

  datatype Response = Success(body: PollResponse) | Failure(error: HttpError)

  /** HTTP exceptions pass through with their status; any other failure
      becomes a 500 whose detail does not depend on the failure's message. */
  function Respond(r: Result<PollResponse, Fault>): (resp: Response)
    ensures r.Ok? ==> resp == Success(r.value)
    ensures r.Err? && r.error.HttpFault? ==> resp == Failure(r.error.error)
    ensures r.Err? && r.error.InternalFault? ==> resp == Failure(InternalError)
  {
    match r
    case Ok(body) => Success(body)
    case Err(HttpFault(e)) => Failure(e)
    case Err(InternalFault(_)) => Failure(InternalError)
  }

  function StatusOf(resp: Response): int {
    match resp
    case Success(_) => 200
    case Failure(e) => e.status
  }

  /** The service's result as seen by the endpoint's handler. */
  function Lift(r: Result<PollResponse, HttpError>): Result<PollResponse, Fault> {
    match r
    case Ok(v) => Ok(v)
    case Err(e) => Err(HttpFault(e))
  }

  datatype Outcome = Outcome(response: Response, state: Admission)

  /** One request against manager state `st`: an invalid timeout is refused
      before the handler runs; otherwise a poll session with the derived
      client address. */
  function Endpoint(st: Admission, lim: Limits, interval: int, evaluationId: string, req: Request,
                    timeout: Option<int>, defaultTimeout: int, t0: int,
                    reader: nat -> ReadOutcome, lag: nat -> nat): (o: Outcome)
    requires Ticking(interval, lag)
    ensures ResolveTimeout(timeout, defaultTimeout).Err? ==> o.state == st && StatusOf(o.response) == 422
    ensures ResolveTimeout(timeout, defaultTimeout).Ok? ==>
              var s := PollSession(st, lim, ClientIp(req),
                 PollParams(evaluationId, ResolveTimeout(timeout, defaultTimeout).value * TicksPerSecond, interval, reader, lag), t0);
              && o.state == s.state
              && (s.response.Ok? ==> o.response == Success(s.response.value))
              && (s.response.Err? ==> o.response == Failure(s.response.error))
  {
    match ResolveTimeout(timeout, defaultTimeout)
    case Err(e) => Outcome(Failure(e), st)
    case Ok(t) =>
      var s := PollSession(st, lim, ClientIp(req), PollParams(evaluationId, t * TicksPerSecond, interval, reader, lag), t0);
      Outcome(Respond(Lift(s.response)), s.state)
  }

  /** The endpoint answers 200, 404, 422 or 429 and never 500: every failure
      the service can end in is an HTTP exception. */
  lemma EndpointStatuses(st: Admission, lim: Limits, interval: int, evaluationId: string, req: Request,
                         timeout: Option<int>, defaultTimeout: int, t0: int,
                         reader: nat -> ReadOutcome, lag: nat -> nat)
    requires Ticking(interval, lag)
    ensures var s := StatusOf(Endpoint(st, lim, interval, evaluationId, req, timeout, defaultTimeout, t0, reader, lag).response);
      s == 200 || s == 404 || s == 422 || s == 429
  {
    if t :| ResolveTimeout(timeout, defaultTimeout) == Ok(t) {
      SessionErrors(st, lim, ClientIp(req), PollParams(evaluationId, t * TicksPerSecond, interval, reader, lag), t0);
    }
  }

  /** The endpoint keeps the manager's invariant. */
  lemma EndpointKeepsInv(st: Admission, lim: Limits, interval: int, evaluationId: string, req: Request,
                         timeout: Option<int>, defaultTimeout: int, t0: int,
                         reader: nat -> ReadOutcome, lag: nat -> nat)
    requires Ticking(interval, lag) && Inv(st, lim)
    ensures Inv(Endpoint(st, lim, interval, evaluationId, req, timeout, defaultTimeout, t0, reader, lag).state, lim)
  {
    if t :| ResolveTimeout(timeout, defaultTimeout) == Ok(t) {
      SessionNoLeak(st, lim, ClientIp(req), PollParams(evaluationId, t * TicksPerSecond, interval, reader, lag), t0);
    }
  }

  /** `long_poll` on the shared service, with the default timeout read from
      the shared configuration. */
  method LongPoll(svc: LongPollingService, evaluationId: string, req: Request, timeout: Option<int>,
                  t0: int, reader: nat -> ReadOutcome, lag: nat -> nat)
    returns (resp: Response)
    requires svc.Valid() && Ticking(svc.config.pollInterval, lag)
    modifies svc.manager
    ensures svc.Valid()
    ensures var o := Endpoint(old(svc.manager.State()), svc.manager.config.Caps(), svc.config.pollInterval, evaluationId, req,
                              timeout, svc.config.defaultTimeout, t0, reader, lag);
            resp == o.response && svc.manager.State() == o.state
  {
    var resolved := ResolveTimeout(timeout, svc.config.defaultTimeout);
    if resolved.Err? {
      return Failure(resolved.error);
    }
    var clientIp := ClientIp(req);
    var result, _ := svc.PollForResults(evaluationId, resolved.value, clientIp, t0, reader, lag);
    resp := Respond(Lift(result));
  }
}
