# xttp configuration and request layer, modelled in Dafny

xttp is a Go HTTP client that adds retries, bounded concurrency and request
pacing. This project models its configuration and request-wrapping layer.
The retry loop itself (`Do`) is not part of the model. The model covers:

- **Client construction** (`client.go`, module `Clients`). The `Options`
  snapshot and its two presets are modelled. `NewClient` derives a
  per-attempt timeout (30% of the overall timeout, in whole seconds, when it
  is above 15 s). It also derives an admission semaphore with `MaxPoolSize`
  slots and a pacing ticker with period `1s / ReqPerSec`. `NewWithHTTPClient`
  derives none of these. In both, `setKillIdleConnections` overwrites the
  kill-idle flag whenever the client has a standard transport. The new value
  is "keep-alives disabled or `MaxConnsPerHost < 0`", even when the caller
  asked for `true`. The model follows this code as written; "## Findings"
  compares it with the behaviour its own comment describes. `Client` is a class.
  `SetKillIdleConnections` updates its options field in place. The
  constructors are proved against the functions `NewClientConfig` and
  `NewWithHttpClientConfig`.
- **Transport configuration** (`http.go`, module `Http`). The pooled and
  spraying transports and the two default clients are records. The spraying
  transport is the pooled one with exactly two fields changed.
- **Verb helpers** (`methods.go`, module `Methods`). GET, POST, DELETE and
  HEAD are modelled, with the JSON and form variants. `GetJSON`, `PostJSON`
  and `PostForm` set the content type in place in the caller's header map.
  The shared `request` step stops on a request-construction error before
  `Do`. Otherwise it copies every header onto the outgoing request, in a
  loop, and then calls `Do`.
- **The request object** (`http_request.go`, module `Requests`).
  `HTTPRequest` is a class. It builds its client once and caches it. It
  installs an empty header map when it has none. Each verb overwrites
  `Response` and `HttpError`. The `Async*` variants are modelled as running
  the returned work function on a work unit. The unit's cancellation state
  is a boolean parameter, checked once before the call.

Durations are `int` nanoseconds (`Base.Second` = 10^9). Go's 64-bit `int`
and `time.Duration` are the subset type `Base.Int64`. No derived value can
overflow: the per-attempt timeout is at most 30% of the overall timeout, and
the ticker period is at most one second.

Four collaborators are not part of this model: `NewRequest`, the client's
`Do`, `urlquery.Marshal` and `url.Values.Encode`. They are the
function-valued fields of `Methods.Env`. `Do` receives the request and
everything the client holds (`Clients.ClientConfig`). A reply is the pair
`Base.Reply(response, err)`.

## Model

| member | source | states |
|---|---|---|
| Http.DefaultReusePooledTransport | http.go:23-46 | keep-alives on, 100 idle connections overall and per host, 90 s idle timeout, 10 s TLS handshake, 1 s expect-continue, 4096-byte header cap, 30 s dial timeout and keep-alive, certificate checks off, renegotiate once, proxy from the environment, no per-host connection cap |
| Http.DefaultHostSprayingTransport | http.go:12-17 | keep-alives off and per-host idle cap -1 (idle connections closed at once); setting those two fields back gives exactly the pooled transport |
| Http.DefaultSprayingClient | http.go:51-55 | wraps exactly DefaultHostSprayingTransport, which closes idle connections; no client timeout |
| Http.DefaultClient | http.go:61-65 | wraps exactly DefaultReusePooledTransport, which reuses connections; no client timeout |
| Http.DefaultClientsDifferOnlyInReuse | http.go:12-65 | the two default clients differ only in their transport; the two transports share dialer, TLS, idle limits and per-host connection cap, and differ in keep-alive and per-host idle cap |
| Clients.PresetsDifferOnlyInKillIdle | client.go:57-79 | the spraying preset requests kill-idle, the single-host preset does not, and the two are otherwise equal |
| Clients.AdjustedTimeout | client.go:85-87 | present exactly when the timeout is above 15 s; then a positive whole number of seconds d with 10·d ≤ 3·timeout < 10·d + 10 s, i.e. 30% of the timeout truncated to seconds |
| Clients.AdjustedTimeoutWholeSeconds | client.go:85-87 | for s > 15 whole seconds the per-attempt timeout is floor(3s/10) seconds |
| Clients.AdjustedTimeoutExamples | client.go:85-87 | 30 s gives 9 s, 16 s gives 4 s, 15 s gives no adjustment |
| Clients.SemaphoreFor | client.go:88-91 | a semaphore exists iff MaxPoolSize > 0, and its capacity is MaxPoolSize |
| Clients.RateLimiterFor | client.go:93-96 | a ticker exists iff ReqPerSec > 0; its period p is positive and is the floor of 1 s / ReqPerSec (p·ReqPerSec ≤ 1 s < (p+1)·ReqPerSec) |
| Clients.ThrottledOptions | client.go:97-98 | the stored semaphore and ticker are the derived ones; every other option equals the caller's |
| Clients.ReconciledKillIdle | client.go:128-134 | with a client over a standard transport the flag becomes DisableKeepAlives or MaxConnsPerHost < 0, whatever was requested; otherwise it is unchanged; a nil client with the flag unset is excluded (nil dereference) |
| Clients.AsWrittenKillIdleDropsRequest | client.go:125-131 | the requested flag is cleared over the pooled client, including NewWithHTTPClient with the spraying preset, while the intended reconciliation keeps it |
| Clients.AsWrittenKillIdleMissesIdleCap | client.go:131 | a keep-alive transport with a negative per-host idle cap leaves an unset flag unset, while the intended reconciliation raises it |
| Clients.IntendedKillIdle | client.go:125-127 | a requested flag is kept; an unset flag is raised exactly when the client's standard transport disables keep-alives or has a negative per-host idle cap |
| Clients.IntendedKillIdleWithDefaultClients | http.go:12-17 | under the intended reconciliation the spraying client always sets the flag and the pooled client keeps the caller's choice |
| Clients.NewClientConfig | client.go:82-109 | pooled default transport, timeout adjusted when above 15 s and otherwise the default client's, default retry policy, jittered backoff, throttled options, and kill-idle always false |
| Clients.NewWithHttpClientConfig | client.go:112-123 | the given client; the options with no timeout, semaphore or ticker derivation, every field as given except the kill-idle flag, which takes its reconciled value (possibly dropping a requested true); default retry policy, non-jittered backoff |
| Clients.Client.New | client.go:82-109 | the constructed client holds exactly NewClientConfig(options) |
| Clients.Client.WithHttpClient | client.go:112-123 | the constructed client holds exactly NewWithHttpClientConfig(client, options) |
| Clients.Client.SetKillIdleConnections | client.go:128-134 | only the kill-idle flag changes, and it becomes ReconciledKillIdle of the client and the old flag |
| Clients.ReconcileWithDefaultClients | client.go:131 | over the spraying client the flag always ends true; over the pooled client it always ends false |
| Methods.WithHeaders | methods.go:61-63 | the outgoing request carries every entry of the caller's map, replacing same-named headers, keeps its other headers, and keeps its method, URL and body |
| Methods.SetHeaders | methods.go:61-63 | the header loop produces exactly WithHeaders of the built request and the caller's map |
| Methods.ExchangeStopsAtBuildError | methods.go:57-60 | a request-construction error is returned with no response, and the reply is the same whatever Do is |
| Methods.ExchangeSendsBuiltRequest | methods.go:61-64 | otherwise the reply is Do's reply for the built request with the caller's headers set |
| Methods.SendRequest | methods.go:56-65 | the reply is the exchange for the client's configuration and the caller's headers; the header map is only read; a nil map is accepted when the build fails, and the build error is returned |
| Methods.Get | methods.go:16-20 | GET to url + "?" + encoded query (the "?" even for an empty query, encoder error ignored), empty body; a nil map only when the build fails |
| Methods.GetJSON | methods.go:23-26 | the caller's map gains Content-Type: application/json (replacing any earlier value, other entries kept), then the GET of Get |
| Methods.Post | methods.go:29-31 | POST with the body forwarded unchanged; a nil map only when the build fails |
| Methods.PostJSON | methods.go:34-37 | the caller's map gains Content-Type: application/json, then the POST of Post |
| Methods.PostForm | methods.go:41-44 | the caller's map gains the form content type; POST with the encoded form as body |
| Methods.Delete | methods.go:47-49 | DELETE with no body; a nil map only when the build fails |
| Methods.Head | methods.go:52-54 | HEAD with no body; a nil map only when the build fails |
| Requests.ClientOptions | http_request.go:36-43 | the client options copy RetryWaitMax, Timeout, RetryMax, MaxPoolSize and ReqPerSec, request kill-idle, and leave every other option zero |
| Requests.RequestedKillIdleIsOverridden | http_request.go:36-44 | the kill-idle flag the request asks for ends false in the client it builds, which carries the request's retry settings and derived throttle |
| Requests.HTTPRequest.Client | http_request.go:34-47 | a client is built from the request's settings only when none is cached; otherwise the cached one is returned |
| Requests.CachedClientOutlivesSettings | http_request.go:34-47 | after settings change, Client still returns the first client, built from the settings it had then |
| Requests.HTTPRequest.Get | http_request.go:49-65 | returns the receiver; settings untouched; header map kept, or a fresh empty one installed when nil; result fields hold the reply of the client's Get |
| Requests.HTTPRequest.PostJson | http_request.go:107-122 | as Get, with the JSON content type put in the header map and the bytes POSTed as a text body |
| Requests.HTTPRequest.GetJson | http_request.go:124-140 | as Get, with the JSON content type put in the header map first |
| Requests.HTTPRequest.Post | http_request.go:142-159 | as Get, POSTing the payload unchanged |
| Requests.HTTPRequest.PostForm | http_request.go:161-178 | as Get, with the form content type put in the header map and the encoded form POSTed |
| Requests.HTTPRequest.AsyncGet | http_request.go:180-192 | a cancelled unit returns (nil, nil) and changes nothing; otherwise the state is that of Get, and the unit returns (nil, error) when the call set an error and (request, nil) otherwise |
| Requests.HTTPRequest.AsyncPostJson | http_request.go:194-206 | the same contract around PostJson; a cancelled unit leaves the header map unchanged too |
| Requests.HTTPRequest.AsyncGetJson | http_request.go:208-219 | the same contract around GetJson |
| Requests.HTTPRequest.AsyncPost | http_request.go:221-233 | the same contract around Post |

## Left out

- The retry loop and its policies are not part of this model. This covers `Do`, `NewRequest`, `DefaultRetryPolicy`, `ExponentialJitterBackoff` and `DefaultBackoff`. `Do` and `NewRequest` are opaque function fields of `Methods.Env`. The retry policy and the backoff are recorded only as which one a client holds. No retry, backoff or attempt-count behaviour is stated.
- The semaphore and the ticker are only recorded as present, with their capacity or period. Their blocking and ticking is concurrency and wall-clock time, and is not modelled.
- Clients.AdjustedTimeout: computes 3·timeout / (10 s) exactly and truncates. Go multiplies float64 seconds by 0.3. The two agree for whole-second timeouts. For other timeouts they may differ by float rounding, which is not modelled.
- Clients.RateLimiterFor: requires ReqPerSec ≤ 10^9. A higher rate gives a zero period, and `time.NewTicker` panics on that. A `MaxPoolSize` too large for `make(chan int, n)` panics too; that panic is not modelled.
- Clients.ReconciledKillIdle: excludes a nil client with the flag unset, because the source dereferences nil there. A typed-nil `*http.Transport` inside a client would also panic; a transport is modelled as present or absent only.
- Methods.GetJSON, Methods.PostJSON, Methods.PostForm: take a non-nil header map. With a nil map Go calls `Put` on nil and dereferences nil before anything else happens.
- Methods.SendRequest, Methods.Get, Methods.Post, Methods.Delete, Methods.Head: accept a nil header map only when building the request fails, and then return the build error, as Go does. Once the request is built, ranging over a nil map dereferences nil, and that case is excluded.
- The client's hook fields (`RequestLogHook`, `ResponseLogHook`, `ErrorHandler`) are left out; the modelled code never sets them.
- `HTTPRequest.Log` is left out: logging, JSON marshalling and reading the response body. So is the global read/write lock around logging.
- Proxy, dial and TLS objects are reduced to their numeric and boolean settings.
- Header keys are used as given. Go canonicalises them in `Header.Set`, and the model does not. Two keys that canonicalise alike would make the outgoing header depend on iteration order; the model does not capture this.
- The ordered header map is modelled as a plain map. Its insertion order and its internal locking are left out.
- Payloads are opaque values handed to the encoders. The query and form encoders are opaque functions. The model does not decide what `urlquery.Marshal` yields on failure; whatever bytes it returns are used, as in the source.
- The work pool is left out: it runs the `Async*` closures. A work unit is reduced to its cancellation flag. Running the closure is modelled as calling the `Async*` method with that flag.
- The model is sequential. Sharing a `HTTPRequest` or a header map between goroutines is not modelled.

## Findings

The model of the client keeps the reconciliation as written, because every
caller in the code sees that value. The intended definition stands beside
it, with its property proved.

| source | as written | input that shows it | evidently intended | confidence | as-written member | corrected member |
|---|---|---|---|---|---|---|
| client.go:125-131 | a requested kill-idle flag is overwritten with the standard transport's setting | `NewWithHTTPClient(DefaultClient(), DefaultOptionsSpraying)` ends with the flag false | the comment says a flag the user enabled needs nothing done, so a requested true stays true | medium, not executed | Clients.AsWrittenKillIdleDropsRequest | Clients.IntendedKillIdle |
| client.go:131 | tests `MaxConnsPerHost < 0` | a keep-alive transport with `MaxIdleConnsPerHost = -1` and the flag unset leaves it unset | test `MaxIdleConnsPerHost < 0`, the field the spraying transport sets (http.go:15) to drop idle connections | medium, not executed | Clients.AsWrittenKillIdleMissesIdleCap | Clients.IntendedKillIdle |
