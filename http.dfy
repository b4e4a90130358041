/** The two transport configurations (connection reuse and host spraying)
    and the standard clients that wrap them. A transport is a record of the
    numeric and boolean settings it is built with. */
module Http {
  import opened Base

  datatype Renegotiation = RenegotiateNever | RenegotiateOnceAsClient | RenegotiateFreelyAsClient

  datatype TlsConfig = TlsConfig(renegotiation: Renegotiation, insecureSkipVerify: bool)

  /** The `net.Dialer` whose `DialContext` the transport uses. */
  datatype Dialer = Dialer(timeout: Int64, keepAlive: Int64)

  /** The settings of an `http.Transport`; a field the builders do not set
      keeps Go's zero value. */
  datatype Transport = Transport(
    proxyFromEnvironment: bool,
    dialer: Dialer,
    maxIdleConns: Int64,
    idleConnTimeout: Int64,
    tlsHandshakeTimeout: Int64,
    expectContinueTimeout: Int64,
    maxIdleConnsPerHost: Int64,
    maxResponseHeaderBytes: Int64,
    tls: TlsConfig,
    disableKeepAlives: bool,
    maxConnsPerHost: Int64)

  /** The dynamic type behind `http.Client.Transport`: none, the standard
      `*http.Transport`, or some other `http.RoundTripper`. */
  datatype RoundTripper = NoTransport | Standard(transport: Transport) | Custom(name: string)

  /** An `*http.Client`: its transport and its overall timeout (0 = none). */
  datatype HttpClient = HttpClient(transport: RoundTripper, timeout: Int64)

  /** Connections are kept alive and idle ones are kept for reuse. */
  predicate ReusesConnections(t: Transport) {
    !t.disableKeepAlives && t.maxIdleConnsPerHost > 0
  }

  /** No keep-alive, and a negative per-host idle cap: idle connections are
      closed at once. */
  predicate ClosesIdleConnections(t: Transport) {
    t.disableKeepAlives && t.maxIdleConnsPerHost < 0
  }

  /** DefaultReusePooledTransport: the pooled transport for repeated hosts. */
  function DefaultReusePooledTransport(): (t: Transport)
    ensures ReusesConnections(t)
    ensures t.maxIdleConns == 100 && t.maxIdleConnsPerHost == 100
    ensures t.idleConnTimeout == 90 * Second
    ensures t.tlsHandshakeTimeout == 10 * Second && t.expectContinueTimeout == Second
    ensures t.maxResponseHeaderBytes == 4096
    ensures t.dialer.timeout == 30 * Second && t.dialer.keepAlive == 30 * Second
    ensures t.tls.insecureSkipVerify && t.tls.renegotiation == RenegotiateOnceAsClient
    ensures t.proxyFromEnvironment && t.maxConnsPerHost == 0
  {
    Transport(
      proxyFromEnvironment := true,
      dialer := Dialer(timeout := 30 * Second, keepAlive := 30 * Second),
      maxIdleConns := 100,
      idleConnTimeout := 90 * Second,
      tlsHandshakeTimeout := 10 * Second,
      expectContinueTimeout := 1 * Second,
      maxIdleConnsPerHost := 100,
      maxResponseHeaderBytes := 4096,
      tls := TlsConfig(renegotiation := RenegotiateOnceAsClient, insecureSkipVerify := true),
      disableKeepAlives := false,
      maxConnsPerHost := 0)
  }

  /** DefaultHostSprayingTransport: the pooled transport with keep-alives
      and idle connections switched off, and nothing else changed. */
  function DefaultHostSprayingTransport(): (t: Transport)
    ensures ClosesIdleConnections(t) && t.maxIdleConnsPerHost == -1
    ensures t.(disableKeepAlives := false, maxIdleConnsPerHost := 100) == DefaultReusePooledTransport()
  {
    var transport := DefaultReusePooledTransport();
    transport.(disableKeepAlives := true, maxIdleConnsPerHost := -1)
  }

  /** DefaultSprayingClient: a client over the spraying transport, no timeout. */
  function DefaultSprayingClient(): (c: HttpClient)
    ensures c.transport == Standard(DefaultHostSprayingTransport())
    ensures ClosesIdleConnections(c.transport.transport)
    ensures c.timeout == 0
  {
    HttpClient(Standard(DefaultHostSprayingTransport()), 0)
  }

  /** DefaultClient: a client over the pooled transport, no timeout. */
  function DefaultClient(): (c: HttpClient)
    ensures c.transport == Standard(DefaultReusePooledTransport())
    ensures ReusesConnections(c.transport.transport)
    ensures c.timeout == 0
  {
    HttpClient(Standard(DefaultReusePooledTransport()), 0)
  }

  /** The two default clients differ in their transport and in nothing else,
      and the two transports agree on every setting outside connection reuse. */
  lemma DefaultClientsDifferOnlyInReuse()
    ensures DefaultSprayingClient().(transport := DefaultClient().transport) == DefaultClient()
    ensures var spray, pooled := DefaultHostSprayingTransport(), DefaultReusePooledTransport();
      && spray.dialer == pooled.dialer && spray.tls == pooled.tls
      && spray.maxIdleConns == pooled.maxIdleConns && spray.idleConnTimeout == pooled.idleConnTimeout
      && spray.maxConnsPerHost == pooled.maxConnsPerHost
      && spray.disableKeepAlives != pooled.disableKeepAlives
      && spray.maxIdleConnsPerHost != pooled.maxIdleConnsPerHost
  {
  }
}
