/** Client construction: the options snapshot, the two presets, the
    values NewClient derives from the options (per-attempt timeout,
    admission semaphore, pacing ticker), and the reconciliation of the
    kill-idle-connections flag with the transport actually installed. */
module Clients {
  import opened Base
  import opened Http

  /** A buffered channel `make(chan int, capacity)` used as a counting semaphore. */
  datatype Semaphore = Semaphore(capacity: Int64)

  /** The channel of a `time.NewTicker(period)`. */
  datatype Ticker = Ticker(period: Int64)

  /** Client options; durations are in nanoseconds. */
  datatype Options = Options(
    retryWaitMin: Int64,
    retryWaitMax: Int64,
    timeout: Int64,
    retryMax: Int64,
    respReadLimit: Int64,
    verbose: bool,
    killIdleConn: bool,
    maxPoolSize: Int64,
    reqPerSec: Int64,
    semaphore: Option<Semaphore>,
    rateLimiter: Option<Ticker>)

  /** Options for many requests sent to many different hosts. */
  const DefaultOptionsSpraying: Options := Options(
    retryWaitMin := 1 * Second,
    retryWaitMax := 30 * Second,
    timeout := 30 * Second,
    retryMax := 5,
    respReadLimit := 4096,
    verbose := false,
    killIdleConn := true,
    maxPoolSize := 100,
    reqPerSec := 10,
    semaphore := None,
    rateLimiter := None)

  /** Options for many requests sent to a single host. */
  const DefaultOptionsSingle: Options := Options(
    retryWaitMin := 1 * Second,
    retryWaitMax := 30 * Second,
    timeout := 30 * Second,
    retryMax := 5,
    respReadLimit := 4096,
    verbose := false,
    killIdleConn := false,
    maxPoolSize := 100,
    reqPerSec := 10,
    semaphore := None,
    rateLimiter := None)

  /** The retry policy and backoff the client holds; their behaviour is not
      part of this model, only which one was installed. */
  datatype RetryPolicy = DefaultRetryPolicy
  datatype Backoff = ExponentialJitterBackoff | DefaultBackoff

  /** Everything a Client holds, as one value. */
  datatype ClientConfig = ClientConfig(
    httpClient: Option<HttpClient>,
    checkRetry: RetryPolicy,
    backoff: Backoff,
    options: Options)

  /** The per-attempt client timeout NewClient installs: None when the
      overall timeout is at most 15 s (the default client's timeout stays),
      otherwise 30% of the overall timeout truncated to whole seconds. */
  function AdjustedTimeout(timeout: Int64): (d: Option<Int64>)
    ensures d.Some? <==> timeout > 15 * Second
    ensures d.Some? ==> 0 < d.value && d.value % Second == 0
    ensures d.Some? ==> 10 * d.value <= 3 * timeout < 10 * d.value + 10 * Second
  {
    if timeout > 15 * Second then
      var whole := 3 * timeout / (10 * Second);
      Some(whole * Second)
    else
      None
  }

  /** The admission semaphore: present exactly when MaxPoolSize is positive,
      with MaxPoolSize slots. */
  function SemaphoreFor(maxPoolSize: Int64): (s: Option<Semaphore>)
    ensures s.Some? <==> maxPoolSize > 0
    ensures s.Some? ==> s.value.capacity == maxPoolSize
  {
    if maxPoolSize > 0 then Some(Semaphore(maxPoolSize)) else None
  }

  /** The pacing ticker: present exactly when ReqPerSec is positive, ticking
      every `1s / ReqPerSec` (integer division), which is the largest period
      that still lets ReqPerSec ticks fit in one second. A rate above 10^9
      would make the period zero, which `time.NewTicker` rejects. */
  function RateLimiterFor(reqPerSec: Int64): (t: Option<Ticker>)
    requires reqPerSec <= Second
    ensures t.Some? <==> reqPerSec > 0
    ensures t.Some? ==> 0 < t.value.period
    ensures t.Some? ==> t.value.period * reqPerSec <= Second < (t.value.period + 1) * reqPerSec
  {
    if reqPerSec > 0 then
      var period := Second / reqPerSec;
      Some(Ticker(period))
    else
      None
  }

  /** The options NewClient stores before reconciling the kill-idle flag:
      the caller's options with the semaphore and the ticker replaced by the
      derived ones, every other field as given. */
  function ThrottledOptions(o: Options): (r: Options)
    requires o.reqPerSec <= Second
    ensures r.semaphore == SemaphoreFor(o.maxPoolSize)
    ensures r.rateLimiter == RateLimiterFor(o.reqPerSec)
    ensures r.(semaphore := o.semaphore, rateLimiter := o.rateLimiter) == o
  {
    o.(semaphore := SemaphoreFor(o.maxPoolSize), rateLimiter := RateLimiterFor(o.reqPerSec))
  }

  /** The test setKillIdleConnections applies to a standard transport:
      keep-alives disabled, or a negative per-host connection cap. The
      spraying transport closes idle connections through a negative per-host
      IDLE cap instead, which this test does not look at. */
  predicate TearsDownIdle(t: Transport) {
    t.disableKeepAlives || t.maxConnsPerHost < 0
  }

  /** The kill-idle flag after setKillIdleConnections. A nil client with the
      flag unset dereferences nil, so that case is excluded. With a client
      over a standard transport the flag reflects that transport, whatever
      was requested; in every other case it stays as requested. */
  function ReconciledKillIdle(hc: Option<HttpClient>, requested: bool): (b: bool)
    requires hc.Some? || requested
    ensures hc.Some? && hc.value.transport.Standard? ==> b == TearsDownIdle(hc.value.transport.transport)
    ensures !(hc.Some? && hc.value.transport.Standard?) ==> b == requested
  {
    if hc.Some? || !requested then
      match hc.value.transport
      case Standard(t) => TearsDownIdle(t)
      case _ => requested
    else
      requested
  }

  /** What NewClient builds: the pooled default client (with the adjusted
      timeout when there is one), the default retry policy, jittered
      backoff, and the throttled options. The kill-idle flag always ends
      false, even when the caller asked for it, since the pooled transport
      keeps its connections. */
  function NewClientConfig(o: Options): (cfg: ClientConfig)
    requires o.reqPerSec <= Second
    ensures cfg.httpClient.Some? && cfg.httpClient.value.transport == DefaultClient().transport
    ensures cfg.httpClient.value.timeout
         == (if o.timeout > 15 * Second then AdjustedTimeout(o.timeout).value else DefaultClient().timeout)
    ensures cfg.checkRetry == DefaultRetryPolicy && cfg.backoff == ExponentialJitterBackoff
    ensures cfg.options == ThrottledOptions(o).(killIdleConn := false)
  {
    var base := DefaultClient();
    var hc := match AdjustedTimeout(o.timeout)
      case Some(d) => base.(timeout := d)
      case None => base;
    var opts := ThrottledOptions(o);
    ClientConfig(Some(hc), DefaultRetryPolicy, ExponentialJitterBackoff,
                 opts.(killIdleConn := ReconciledKillIdle(Some(hc), opts.killIdleConn)))
  }

  /** What NewWithHTTPClient builds: the given client, and the options with
      no timeout, semaphore or ticker derivation; only the kill-idle flag
      changes, to its reconciled value, which may drop a requested `true`.
      The backoff is the non-jittered one. */
  function NewWithHttpClientConfig(hc: Option<HttpClient>, o: Options): (cfg: ClientConfig)
    requires hc.Some? || o.killIdleConn
    ensures cfg.httpClient == hc
    ensures cfg.checkRetry == DefaultRetryPolicy && cfg.backoff == DefaultBackoff
    ensures cfg.options.(killIdleConn := o.killIdleConn) == o
    ensures cfg.options.killIdleConn == ReconciledKillIdle(hc, o.killIdleConn)
  {
    ClientConfig(hc, DefaultRetryPolicy, DefaultBackoff, o.(killIdleConn := ReconciledKillIdle(hc, o.killIdleConn)))
  }

  /** The Client object. Its fields are set when it is built and only
      setKillIdleConnections changes one of them afterwards. */
  class Client {
    var httpClient: Option<HttpClient>
    var checkRetry: RetryPolicy
    var backoff: Backoff
    var options: Options

    function Config(): (cfg: ClientConfig)
      reads this
    {
      ClientConfig(httpClient, checkRetry, backoff, options)
    }

    /** NewClient. */
    constructor New(opts: Options)
      requires opts.reqPerSec <= Second
      ensures Config() == NewClientConfig(opts)
    {
      var hc := DefaultClient();
      if opts.timeout > 15 * Second {
        hc := hc.(timeout := AdjustedTimeout(opts.timeout).value);
      }
      var semaphore := None;
      if opts.maxPoolSize > 0 {
        semaphore := Some(Semaphore(opts.maxPoolSize));
      }
      var emitter := None;
      if opts.reqPerSec > 0 {
        emitter := RateLimiterFor(opts.reqPerSec);
      }
      httpClient := Some(hc);
      checkRetry := DefaultRetryPolicy;
      backoff := ExponentialJitterBackoff;
      options := opts.(semaphore := semaphore, rateLimiter := emitter);
      new;
      SetKillIdleConnections();
    }

    /** NewWithHTTPClient. */
    constructor WithHttpClient(client: Option<HttpClient>, opts: Options)
      requires client.Some? || opts.killIdleConn
      ensures Config() == NewWithHttpClientConfig(client, opts)
    {
      httpClient := client;
      checkRetry := DefaultRetryPolicy;
      backoff := DefaultBackoff;
      options := opts;
      new;
      SetKillIdleConnections();
    }

    /** setKillIdleConnections: when there is a client, or the flag is unset,
        and the client's transport is a standard one, the flag is overwritten
        with that transport's idle teardown; the guard's second disjunct only
        ever admits a nil client, which dereferences nil. */
    method SetKillIdleConnections()
      requires httpClient.Some? || options.killIdleConn
      modifies this`options
      ensures options == old(options).(killIdleConn := ReconciledKillIdle(httpClient, old(options.killIdleConn)))
    {
      if httpClient.Some? || !options.killIdleConn {
        match httpClient.value.transport {
          case Standard(b) =>
            options := options.(killIdleConn := b.disableKeepAlives || b.maxConnsPerHost < 0);
          case _ =>
        }
      }
    }
  }

  /** A transport that drops idle connections: keep-alives disabled, or a
      negative per-host idle cap (the two settings the spraying transport
      uses). */
  predicate DropsIdleConnections(t: Transport) {
    t.disableKeepAlives || t.maxIdleConnsPerHost < 0
  }

  /** The reconciliation the comment on setKillIdleConnections describes: a
      flag the caller set is left alone, and an unset flag is raised when
      the client's standard transport drops idle connections. A nil client
      is harmless here. */
  function IntendedKillIdle(hc: Option<HttpClient>, requested: bool): (b: bool)
    ensures requested ==> b
    ensures hc.Some? && hc.value.transport.Standard? && DropsIdleConnections(hc.value.transport.transport) ==> b
    ensures b ==> requested || (hc.Some? && hc.value.transport.Standard? && DropsIdleConnections(hc.value.transport.transport))
  {
    requested ||
      match hc
      case Some(HttpClient(Standard(t), _)) => DropsIdleConnections(t)
      case _ => false
  }

  /** As written, the reconciliation drops a requested flag: NewWithHTTPClient
      over the pooled default client with the spraying preset, which asks for
      the flag, ends with it cleared. */
  lemma AsWrittenKillIdleDropsRequest()
    ensures DefaultOptionsSpraying.killIdleConn
    ensures !ReconciledKillIdle(Some(DefaultClient()), true)
    ensures !NewWithHttpClientConfig(Some(DefaultClient()), DefaultOptionsSpraying).options.killIdleConn
    ensures IntendedKillIdle(Some(DefaultClient()), true)
  {
  }

  /** As written, the reconciliation misses a transport that keeps
      keep-alives but closes idle connections through a negative per-host
      idle cap, because it tests the per-host connection cap instead. */
  lemma AsWrittenKillIdleMissesIdleCap()
    ensures var t := DefaultReusePooledTransport().(maxIdleConnsPerHost := -1);
      && DropsIdleConnections(t)
      && !ReconciledKillIdle(Some(HttpClient(Standard(t), 0)), false)
      && IntendedKillIdle(Some(HttpClient(Standard(t), 0)), false)
  {
  }

  /** With the intended reconciliation the default clients behave as their
      names suggest: the spraying client always ends with the flag set, and
      the pooled client keeps whatever the caller asked for. */
  lemma IntendedKillIdleWithDefaultClients(requested: bool)
    ensures IntendedKillIdle(Some(DefaultSprayingClient()), requested)
    ensures IntendedKillIdle(Some(DefaultClient()), requested) == requested
  {
  }

  /** The presets are the same options except for the kill-idle flag. */
  lemma PresetsDifferOnlyInKillIdle()
    ensures DefaultOptionsSpraying.killIdleConn && !DefaultOptionsSingle.killIdleConn
    ensures DefaultOptionsSpraying.(killIdleConn := false) == DefaultOptionsSingle
  {
  }

  /** For a whole number of seconds above 15, the per-attempt timeout is
      floor(3s/10) seconds. */
  lemma AdjustedTimeoutWholeSeconds(s: int)
    requires 15 < s && s * Second < 0x8000_0000_0000_0000
    ensures AdjustedTimeout(s * Second) == Some(3 * s / 10 * Second)
  {
  }

  /** The two figures quoted for the default presets: 30 s gives 9 s and
      16 s gives 4 s; 15 s is left alone. */
  lemma AdjustedTimeoutExamples()
    ensures AdjustedTimeout(30 * Second) == Some(9 * Second)
    ensures AdjustedTimeout(16 * Second) == Some(4 * Second)
    ensures AdjustedTimeout(15 * Second) == None
  {
  }

  /** Reconciling against the default clients: a client over the spraying
      transport always ends with the flag set, one over the pooled transport
      always ends with it cleared, whatever was requested. */
  lemma ReconcileWithDefaultClients(requested: bool)
    ensures ReconciledKillIdle(Some(DefaultSprayingClient()), requested)
    ensures !ReconciledKillIdle(Some(DefaultClient()), requested)
  {
  }
}
