# miniflux-auto-read in Dafny

A model of the decision logic of miniflux-auto-read, a small service that
asks a Miniflux server to save ("bookmark") every unread entry and then
mark it read. It covers three pieces:

- **Configuration loading** (`Configuration`): the environment is a map
  from variable name to value, a missing name reads as `""`, and the fatal
  exit on missing credentials is a `Failure` result.
- **The entry-processing loop** (`Handlers.Process`): a method with a loop
  over the listed entries that calls a recording client (`Miniflux.Client`)
  and counts successes and errors. What the remote answers is a fixed
  oracle (`Miniflux.Remote`): whether listing fails, which entries it
  lists, and the entry IDs whose save or status update fails. The loop is
  proved against two specification functions in `ProcessSpec`: `Tally`
  (the counts) and `Trace` (the requests sent, in order). The lemmas there
  state what the loop promises.
- **Response selection** of `/healthz` (a function of the HTTP method, the
  identity request's error and a time-out flag) and `/process` (a method,
  because it runs `Process` and so sends requests).

## Model

| member | source | states |
|---|---|---|
| Configuration.LoadConfig | config.go:21-43 | Fails with the fatal message exactly when the API URL or token is empty or unset. On success the URL and token are the environment's values and are non-empty. An empty or unset PORT gives "8080", any other PORT is kept as is. Daemon is true exactly when DAEMON is "true". |
| Configuration.LoadConfigRoundTrip | config.go:21-43 | Every configuration with a non-empty URL, token and port loads back unchanged from the environment that spells it. |
| Configuration.LoadConfigReadsOnlyItsVariables | config.go:22-41 | Two environments that agree on the four variables that are read load to the same result. |
| Configuration.DaemonNeedsExactTrue | config.go:41 | With credentials set, DAEMON = "TRUE", "1" or unset gives daemon off; "true" gives daemon on. |
| ProcessSpec.Tally | handlers.go:97-119 | The counts after handling a list of entries have total equal to the list's length and processed plus errors equal to total. |
| ProcessSpec.TallyCountsOutcomes | handlers.go:100-115 | Processed is the number of entries whose save and mark-read both succeed. Errors is the number whose save fails plus the number whose save succeeds but whose mark-read fails. |
| ProcessSpec.EntryCallsIds | handlers.go:102-112 | One entry gets exactly one save request. It gets a status update for its own ID only when the save succeeded. |
| ProcessSpec.TraceSavesEachEntryOnce | handlers.go:100-106 | The save requests name the listed entries' IDs exactly, in fetch order. No entry is skipped and none is retried. |
| ProcessSpec.TraceMarksSavedEntries | handlers.go:102-112 | The status-update requests name exactly the entries whose save succeeded, in fetch order. |
| ProcessSpec.TraceMarkFollowsSave | handlers.go:102-112 | Every status update carries the single ID `[id]` and the status read. It comes right after the successful save request for that same ID. |
| ProcessSpec.NoMarkAfterFailedSave | handlers.go:102-106 | No status update ever names an entry whose save failed. |
| ProcessSpec.FetchFailureLooksLikeNoEntries | handlers.go:90-95 | A failed listing returns (0, 0, 0), the same triple as an empty listing. |
| ProcessSpec.SecondOfThreeSaveFails | handlers.go:100-119 | Three entries where the second cannot be saved give (2, 1, 3). |
| Handlers.Healthz | handlers.go:14-61 | 405 exactly for a non-GET. For a GET: 503 "unhealthy" with the error text when the identity request fails, then 503 "unhealthy" with the time-out message when the request's context was done once the identity request returned (five seconds passed or the caller cancelled), otherwise 200 "healthy". A non-GET always gets the "Method not allowed" body. |
| Handlers.Process | handlers.go:88-120 | Returns the `Tally` of the listed entries, or (0, 0, 0) when listing fails. Sends one listing request with the given filter, then exactly the `Trace` of the listed entries, or nothing more when listing fails. Processed plus errors equals total. |
| Handlers.ProcessEntriesHandler | handlers.go:64-86 | A non-POST gets 405 and sends no request. A POST runs the processing loop with the unread filter and answers 200 with its processed, errors and total counts. |

## Left out

- server.go and main.go: building the HTTP server, `ListenAndServe`, the one-shot or daemon start-up, waiting for OS signals and the 30-second graceful shutdown. This is I/O and concurrency with no logic of its own beyond the library calls.
- The Miniflux client library: it is a recording stub with a fixed oracle. A real remote can answer differently for the same ID on two calls; the oracle cannot, because it fails by ID.
- Logging (`log.Printf`, `log.Println`) is dropped. `log.Fatal` in config.go becomes a `Failure` result instead of a process exit.
- JSON encoding, the Content-Type header and the RFC 3339 timestamp of a healthy answer: a body is only tagged as healthy, unhealthy, counts or method-not-allowed.
- The health-check context (five seconds, derived from the request's own context) is the boolean input `timedOut` of `Handlers.Healthz`: it is true when that context was done as the identity request returned, by time-out or by the caller cancelling. No clock and no cancellation are modelled.
- Races between concurrent `/process` requests against the remote API: the model is sequential.
- Integer widths: the counters are Go `int` and entry IDs `int64`; the model uses unbounded integers, since a count cannot exceed the length of a list held in memory.
- The `Server` struct of server.go holds only the URL, the token and the client; the model passes the client directly to `Process` and the handlers.
