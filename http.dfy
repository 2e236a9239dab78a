/**
 * The response interceptor of the shared axios instance
 * (frontend/src/services/http.ts).  A 2xx response passes through.  A 401
 * on a request whose `_retry` flag is unset marks the request, issues one
 * refresh POST through the same instance, and replays the marked request;
 * a failed refresh logs out and rejects with the refresh error.  Anything
 * else is rejected unchanged.
 *
 * The network is a stateful transport `net(state, request) = (state',
 * reply)`, so that the server side (cookies, sessions) may change from one
 * call to the next.  The interceptor re-enters itself for the refresh and
 * the replay, and nothing in the code bounds that depth; the model
 * therefore runs on `fuel` and reports `OutOfFuel` when it is exhausted,
 * instead of assuming termination.
 */
module Http {

  datatype Method = Get | Post | Put | Patch | Delete

  /** A request config; `retry` is the `_retry` flag the interceptor sets. */
  datatype Request = Request(verb: Method, url: string, data: string, retry: bool)

  /** `http.post('/auth/refresh')`: a fresh config every time, so its flag is unset. */
  const RefreshRequest := Request(Post, "/auth/refresh", "", false)

  /** What the transport gives back: a response with a status, or no response at all. */
  datatype Reply = Response(status: int, data: string) | NoResponse(reason: string)

  /** axios resolves on 2xx and rejects otherwise. */
  predicate Resolves(r: Reply) {
    r.Response? && 200 <= r.status < 300
  }

  /** An axios error: the reply it came with and the config that was sent. */
  datatype HttpError = HttpError(reply: Reply, config: Request)

  /** How a call through the instance settles. */
  datatype Outcome = Resolved(response: Reply) | Rejected(error: HttpError) | OutOfFuel

  /** What the interceptor does that can be observed: transport calls and logouts. */
  datatype Event = Call(request: Request) | Logout

  datatype Run<S> = Run(outcome: Outcome, state: S, events: seq<Event>)

  /** The interceptor's condition: `error.response?.status === 401 && !originalRequest._retry`. */
  predicate ShouldRefresh(r: Reply, config: Request) {
    r.Response? && r.status == 401 && !config.retry
  }

  /** The config with its flag cleared, to compare requests up to the mark. */
  function Unmarked(r: Request): Request {
    r.(retry := false)
  }

  /** `http(req)` with the interceptor installed. */
  function Send<S>(net: (S, Request) -> (S, Reply), s: S, req: Request, fuel: nat): (run: Run<S>)
    ensures run.events == [] <==> fuel == 0
    ensures fuel > 0 ==> run.events[0] == Call(req)
    ensures run.outcome.Resolved? ==> Resolves(run.outcome.response)
    ensures run.outcome.Rejected? ==>
      !Resolves(run.outcome.error.reply) && !ShouldRefresh(run.outcome.error.reply, run.outcome.error.config)
    ensures forall i :: 0 <= i < |run.events| && run.events[i].Call? ==>
      Unmarked(run.events[i].request) == Unmarked(req) || Unmarked(run.events[i].request) == RefreshRequest
    ensures req.retry && fuel > 0 ==> |run.events| == 1 && !run.outcome.OutOfFuel?
    decreases fuel
  {
    if fuel == 0 then Run(OutOfFuel, s, [])
    else
      var (s1, reply) := net(s, req);
      if Resolves(reply) then Run(Resolved(reply), s1, [Call(req)])
      else if ShouldRefresh(reply, req) then
        var marked := req.(retry := true);
        var refresh := Send(net, s1, RefreshRequest, fuel - 1);
        match refresh.outcome
        case Resolved(_) =>
          var replay := Send(net, refresh.state, marked, fuel - 1);
          Run(replay.outcome, replay.state, [Call(req)] + refresh.events + replay.events)
        case Rejected(e) =>
          Run(Rejected(e), refresh.state, [Call(req)] + refresh.events + [Logout])
        case OutOfFuel =>
          Run(OutOfFuel, refresh.state, [Call(req)] + refresh.events)
      else Run(Rejected(HttpError(reply, req)), s1, [Call(req)])
  }

  /** A successful response is handed to the caller unchanged, after one transport call. */
  lemma SuccessPassesThrough<S>(net: (S, Request) -> (S, Reply), s: S, req: Request, fuel: nat)
    requires fuel > 0 && Resolves(net(s, req).1)
    ensures Send(net, s, req, fuel) == Run(Resolved(net(s, req).1), net(s, req).0, [Call(req)])
  {
  }

  /** Any other error than a 401 is rejected with the original error, and no refresh is issued. */
  lemma OtherErrorRejected<S>(net: (S, Request) -> (S, Reply), s: S, req: Request, fuel: nat)
    requires fuel > 0
    requires var r := net(s, req).1; !Resolves(r) && !(r.Response? && r.status == 401)
    ensures Send(net, s, req, fuel) == Run(Rejected(HttpError(net(s, req).1, req)), net(s, req).0, [Call(req)])
  {
  }

  /** A 401 on a request that is already marked is rejected without another refresh. */
  lemma MarkedRequestRejected<S>(net: (S, Request) -> (S, Reply), s: S, req: Request, fuel: nat)
    requires fuel > 0 && req.retry
    requires var r := net(s, req).1; r.Response? && r.status == 401
    ensures Send(net, s, req, fuel) == Run(Rejected(HttpError(net(s, req).1, req)), net(s, req).0, [Call(req)])
  {
  }

  /**
   * A 401 on an unmarked request followed by a successful refresh: exactly
   * one refresh POST, then the marked request is replayed once, and the
   * replay's outcome is the caller's, whatever it is.
   */
  lemma RefreshThenReplay<S>(net: (S, Request) -> (S, Reply), s: S, req: Request, fuel: nat)
    requires fuel >= 2 && !req.retry
    requires var (s1, r) := net(s, req); r.Response? && r.status == 401 && Resolves(net(s1, RefreshRequest).1)
    ensures var s1 := net(s, req).0;
      var s2 := net(s1, RefreshRequest).0;
      var replay := net(s2, req.(retry := true));
      var run := Send(net, s, req, fuel);
      && run.events == [Call(req), Call(RefreshRequest), Call(req.(retry := true))]
      && run.state == replay.0
      && (run.outcome == Resolved(replay.1) || run.outcome == Rejected(HttpError(replay.1, req.(retry := true))))
      && (Resolves(replay.1) <==> run.outcome.Resolved?)
  {
  }

  /**
   * A refresh that fails with an error other than 401 logs out, and the
   * caller is rejected with the refresh error, not with its own 401.
   */
  lemma RefreshFailureLogsOut<S>(net: (S, Request) -> (S, Reply), s: S, req: Request, fuel: nat)
    requires fuel >= 2 && !req.retry
    requires var (s1, r) := net(s, req);
      var rr := net(s1, RefreshRequest).1;
      r.Response? && r.status == 401 && !Resolves(rr) && !(rr.Response? && rr.status == 401)
    ensures var s1 := net(s, req).0;
      var refresh := net(s1, RefreshRequest);
      Send(net, s, req, fuel) == Run(Rejected(HttpError(refresh.1, RefreshRequest)), refresh.0,
                                     [Call(req), Call(RefreshRequest), Logout])
  {
  }

  /** `n` copies of one event. */
  function Repeat(e: Event, n: nat): (r: seq<Event>)
    ensures |r| == n && forall i :: 0 <= i < n ==> r[i] == e
  {
    if n == 0 then [] else [e] + Repeat(e, n - 1)
  }

  /**
   * When the refresh endpoint itself answers 401 (the backend guard does so
   * for a missing, invalid or wrongly typed refresh cookie), the refresh
   * call re-enters the refresh path: whatever the fuel, the call never
   * settles, and all it does is issue refresh POSTs, one per unit of fuel.
   */
  lemma {:induction false} RefreshLoopDiverges<S>(net: (S, Request) -> (S, Reply), s: S, fuel: nat)
    requires forall t: S :: net(t, RefreshRequest).1.Response? && net(t, RefreshRequest).1.status == 401
    ensures Send(net, s, RefreshRequest, fuel).outcome == OutOfFuel
    ensures Send(net, s, RefreshRequest, fuel).events == Repeat(Call(RefreshRequest), fuel)
    decreases fuel
  {
    if fuel > 0 {
      var s1 := net(s, RefreshRequest).0;
      RefreshLoopDiverges(net, s1, fuel - 1);
    }
  }

  /**
   * Consequently a request that meets a 401 while the refresh endpoint
   * answers 401 never settles either: neither resolved nor rejected, and
   * logout is never reached.
   */
  lemma SessionExpiryNeverSettles<S>(net: (S, Request) -> (S, Reply), s: S, req: Request, fuel: nat)
    requires forall t: S :: net(t, RefreshRequest).1.Response? && net(t, RefreshRequest).1.status == 401
    requires !req.retry && net(s, req).1.Response? && net(s, req).1.status == 401
    ensures Send(net, s, req, fuel).outcome == OutOfFuel
    ensures Logout !in Send(net, s, req, fuel).events
  {
    if fuel > 0 {
      RefreshLoopDiverges(net, net(s, req).0, fuel - 1);
    }
  }
}
