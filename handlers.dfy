/**
  The two HTTP handlers and the entry-processing loop (handlers.go).
  A request is reduced to its method; a response to its status code and
  a tag for its JSON body. The remote API is the recording `Client`.
 */
module Handlers {
  import opened Wrappers
  import opened Miniflux
  import opened ProcessSpec

  const MethodGet := "GET"
  const MethodPost := "POST"

  const StatusOK := 200
  const StatusMethodNotAllowed := 405
  const StatusServiceUnavailable := 503

  const CannotConnect := "Cannot connect to Miniflux API"
  const HealthCheckTimeout := "Health check timeout"

  /** The JSON body of a response, without the timestamp of a healthy answer. */
  datatype Body =
    | MethodNotAllowed
    | Healthy
    | Unhealthy(message: string, error: Option<string>)
    | Report(counts: Counts)

  datatype Response = Response(status: int, body: Body)

  /** The filter `/process` lists entries with. */
  const UnreadFilter := Filter(Unread)

  /**
    GET /healthz. `me` is the error of the identity request, if any.
    `timedOut` says whether the request's context was done when the identity
    request returned: either five seconds had passed or the caller had
    cancelled the request. The identity request itself is not bounded by it.
   */
  function Healthz(verb: string, me: Option<ApiError>, timedOut: bool): (resp: Response)
    ensures resp.status == StatusMethodNotAllowed <==> verb != MethodGet
    ensures verb != MethodGet ==> resp == Response(StatusMethodNotAllowed, MethodNotAllowed)
    ensures resp.status == StatusOK <==> verb == MethodGet && me.None? && !timedOut
    ensures resp.status == StatusServiceUnavailable <==> verb == MethodGet && (me.Some? || timedOut)
    ensures resp.body.Healthy? <==> resp.status == StatusOK
    ensures resp.body.Unhealthy? <==> resp.status == StatusServiceUnavailable
    ensures verb == MethodGet && me.Some? ==> resp.body == Unhealthy(CannotConnect, Some(me.value.message))
    ensures verb == MethodGet && me.None? && timedOut ==> resp.body == Unhealthy(HealthCheckTimeout, None)
  {
    if verb != MethodGet then
      Response(StatusMethodNotAllowed, MethodNotAllowed)
    else if me.Some? then
      Response(StatusServiceUnavailable, Unhealthy(CannotConnect, Some(me.value.message)))
    else if timedOut then
      Response(StatusServiceUnavailable, Unhealthy(HealthCheckTimeout, None))
    else
      Response(StatusOK, Healthy)
  }

  /**
    Lists the entries matching `filter`, then saves each one and marks it
    read, in order, counting successes and errors. A failed listing gives
    (0, 0, 0) and sends nothing more.
   */
  method Process(client: Client, filter: Filter) returns (res: Counts)
    modifies client
    ensures res == Expected(client.remote)
    ensures client.calls == old(client.calls) + ExpectedCalls(client.remote, filter)
    // Corollaries of the first ensures and Tally's contract, kept for callers:
    ensures client.remote.fetchFails ==> res == Counts(0, 0, 0)
    ensures !client.remote.fetchFails ==> res.total == |client.remote.listed|
    ensures res.processed + res.errors == res.total
  {
    var fetched := client.Entries(filter);
    if fetched.Failure? {
      return Counts(0, 0, 0);
    }
    var entries := fetched.value;
    var processed: nat, errors: nat := 0, 0;
    for i := 0 to |entries|
      invariant Counts(processed, errors, i) == Tally(entries[..i], client.remote)
      invariant client.calls == old(client.calls) + [ListEntries(filter)] + Trace(entries[..i], client.remote)
    {
      var entry := entries[i];
      assert entries[..i + 1][..i] == entries[..i];
      var saveErr := client.SaveEntry(entry.id);
      if saveErr.Some? {
        errors := errors + 1;
        continue;
      }
      var markErr := client.UpdateEntries([entry.id], Read);
      assert [entry.id][0] == entry.id;
      if markErr.Some? {
        errors := errors + 1;
        continue;
      }
      processed := processed + 1;
    }
    assert entries[..|entries|] == entries;
    res := Counts(processed, errors, |entries|);
  }

  /**
    POST /process. Any other method is refused with 405 before anything is
    sent to the remote API; a POST runs `Process` with the unread filter and
    answers 200 with its counts.
   */
  method ProcessEntriesHandler(client: Client, verb: string) returns (resp: Response)
    modifies client
    ensures verb != MethodPost ==> resp == Response(StatusMethodNotAllowed, MethodNotAllowed)
    ensures verb != MethodPost ==> client.calls == old(client.calls)
    ensures verb == MethodPost ==> resp == Response(StatusOK, Report(Expected(client.remote)))
    ensures verb == MethodPost ==> client.calls == old(client.calls) + ExpectedCalls(client.remote, UnreadFilter)
  {
    if verb != MethodPost {
      return Response(StatusMethodNotAllowed, MethodNotAllowed);
    }
    var counts := Process(client, UnreadFilter);
    resp := Response(StatusOK, Report(counts));
  }
}
