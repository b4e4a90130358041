/** The request object callers fill in and reuse: it builds its client on
    first use and keeps it, sends one verb at a time through that client,
    and records the latest response and error in its own fields. The
    asynchronous variants run the same call as a unit of work that first
    checks whether it was cancelled. */
module Requests {
  import opened Base
  import Clients
  import Methods

  /** The fields of a request that sending never changes. */
  datatype RequestSettings = RequestSettings(
    id: string,
    url: string,
    payload: Methods.Payload,
    retryMax: Int64,
    retryWaitMax: Int64,
    timeout: Int64,
    reqPerSec: Int64,
    maxPoolSize: Int64,
    status: Int64,
    logRequest: bool)

  /** The options the request asks its client to be built with: its retry
      ceiling, maximum wait, timeout, pool size and rate, and the kill-idle
      flag set; every other option is zero. */
  function ClientOptions(s: RequestSettings): (o: Clients.Options)
    ensures o.retryWaitMax == s.retryWaitMax && o.timeout == s.timeout && o.retryMax == s.retryMax
    ensures o.maxPoolSize == s.maxPoolSize && o.reqPerSec == s.reqPerSec
    ensures o.killIdleConn
    ensures o.retryWaitMin == 0 && o.respReadLimit == 0 && !o.verbose
    ensures o.semaphore == None && o.rateLimiter == None
  {
    Clients.Options(
      retryWaitMin := 0,
      retryWaitMax := s.retryWaitMax,
      timeout := s.timeout,
      retryMax := s.retryMax,
      respReadLimit := 0,
      verbose := false,
      killIdleConn := true,
      maxPoolSize := s.maxPoolSize,
      reqPerSec := s.reqPerSec,
      semaphore := None,
      rateLimiter := None)
  }

  /** The kill-idle flag the request asks for never survives: the client it
      builds has the flag cleared, and otherwise carries the request's
      settings. */
  lemma RequestedKillIdleIsOverridden(s: RequestSettings)
    requires s.reqPerSec <= Second
    ensures ClientOptions(s).killIdleConn
    ensures var opts := Clients.NewClientConfig(ClientOptions(s)).options;
      && !opts.killIdleConn
      && opts.retryMax == s.retryMax && opts.retryWaitMax == s.retryWaitMax && opts.timeout == s.timeout
      && opts.semaphore == Clients.SemaphoreFor(s.maxPoolSize)
      && opts.rateLimiter == Clients.RateLimiterFor(s.reqPerSec)
  {
  }

  class HTTPRequest {
    var id: string
    var url: string
    var payload: Methods.Payload
    var headers: Methods.HeaderMap?
    var retryMax: Int64
    var retryWaitMax: Int64
    var timeout: Int64
    var reqPerSec: Int64
    var maxPoolSize: Int64
    var response: Option<Response>
    var httpError: Option<Error>
    var status: Int64
    var client: Clients.Client?
    var logRequest: bool

    /** A request as a caller writes it down: no client yet, no result. */
    constructor (id: string, url: string, payload: Methods.Payload, headers: Methods.HeaderMap?,
                 retryMax: Int64, retryWaitMax: Int64, timeout: Int64, reqPerSec: Int64,
                 maxPoolSize: Int64, logRequest: bool)
      ensures Settings() == RequestSettings(id, url, payload, retryMax, retryWaitMax, timeout,
                                            reqPerSec, maxPoolSize, 0, logRequest)
      ensures this.headers == headers && client == null && response == None && httpError == None
    {
      this.id, this.url, this.payload, this.headers := id, url, payload, headers;
      this.retryMax, this.retryWaitMax, this.timeout := retryMax, retryWaitMax, timeout;
      this.reqPerSec, this.maxPoolSize, this.logRequest := reqPerSec, maxPoolSize, logRequest;
      response, httpError, status, client := None, None, 0, null;
    }

    function Settings(): (s: RequestSettings)
      reads this
    {
      RequestSettings(id, url, payload, retryMax, retryWaitMax, timeout, reqPerSec, maxPoolSize, status, logRequest)
    }

    /** A client can be obtained: one is cached, or the rate is one that
        NewClient accepts. */
    predicate ClientAvailable()
      reads this
    {
      client == null ==> reqPerSec <= Second
    }

    /** Client: builds a client from the request's settings the first time
        and caches it; later calls return the cached client, whatever the
        settings have become. */
    method Client() returns (c: Clients.Client)
      requires ClientAvailable()
      modifies this`client
      ensures client == c
      ensures old(client) != null ==> c == old(client)
      ensures old(client) == null ==> fresh(c) && c.Config() == Clients.NewClientConfig(ClientOptions(Settings()))
    {
      if client == null {
        var opts := ClientOptions(Settings());
        client := new Clients.Client.New(opts);
      }
      c := client;
    }

    /** What every verb leaves behind, apart from the header entries and the
        reply: the settings untouched, a header map (the existing one, or a
        fresh empty one when there was none), and the cached or newly built
        client. */
    twostate predicate Dispatched()
      reads this, client
    {
      && Settings() == old(Settings())
      && headers != null
      && (old(headers) != null ==> headers == old(headers))
      && (old(headers) == null ==> fresh(headers))
      && client != null
      && (old(client) != null ==> client == old(client))
      && (old(client) == null ==> fresh(client) && reqPerSec <= Second && client.Config() == Clients.NewClientConfig(ClientOptions(Settings())))
    }

    /** The result fields hold the reply of the call. */
    predicate Holds(reply: Reply)
      reads this
    {
      response == reply.response && httpError == reply.err
    }

    /** What the work function of an Async variant returns once the call is
        made: the error when the call set one, the request itself otherwise. */
    predicate AsyncOutcome(result: HTTPRequest?, err: Option<Error>)
      reads this
    {
      if httpError.Some? then result == null && err == httpError else result == this && err == None
    }

    twostate predicate DidGet(env: Methods.Env, payload: Methods.Payload)
      reads this, client, headers
    {
      && Dispatched()
      && headers.entries == (if old(headers) == null then map[] else old(headers.entries))
      && Holds(Methods.Exchange(client.Config(), env, Methods.MethodGet,
                                url + "?" + env.marshalQuery(payload).0, Methods.Text(""), headers.entries))
    }

    twostate predicate DidGetJson(env: Methods.Env, payload: Methods.Payload)
      reads this, client, headers
    {
      && Dispatched()
      && headers.entries
         == (if old(headers) == null then map[] else old(headers.entries))[Methods.ContentType := Methods.ApplicationJson]
      && Holds(Methods.Exchange(client.Config(), env, Methods.MethodGet,
                                url + "?" + env.marshalQuery(payload).0, Methods.Text(""), headers.entries))
    }

    twostate predicate DidPost(env: Methods.Env, body: Methods.Body)
      reads this, client, headers
    {
      && Dispatched()
      && headers.entries == (if old(headers) == null then map[] else old(headers.entries))
      && Holds(Methods.Exchange(client.Config(), env, Methods.MethodPost, url, body, headers.entries))
    }

    twostate predicate DidPostJson(env: Methods.Env, payload: string)
      reads this, client, headers
    {
      && Dispatched()
      && headers.entries
         == (if old(headers) == null then map[] else old(headers.entries))[Methods.ContentType := Methods.ApplicationJson]
      && Holds(Methods.Exchange(client.Config(), env, Methods.MethodPost, url, Methods.Text(payload), headers.entries))
    }

    twostate predicate DidPostForm(env: Methods.Env, form: Methods.Form)
      reads this, client, headers
    {
      && Dispatched()
      && headers.entries
         == (if old(headers) == null then map[] else old(headers.entries))[Methods.ContentType := Methods.FormUrlEncoded]
      && Holds(Methods.Exchange(client.Config(), env, Methods.MethodPost, url,
                                Methods.Text(env.encodeForm(form)), headers.entries))
    }

    /** Get: GETs the request's URL with the payload as query string and
        returns the request itself, its result fields overwritten. */
    method Get(env: Methods.Env, payload: Methods.Payload) returns (y: HTTPRequest)
      requires ClientAvailable()
      modifies this
      ensures y == this && DidGet(env, payload)
    {
      if headers == null {
        headers := new Methods.HeaderMap();
      }
      var c := Client();
      var reply := Methods.Get(c, env, url, payload, headers);
      y := this;
      y.response := reply.response;
      y.httpError := reply.err;
    }

    /** PostJson: POSTs the bytes as a JSON body, setting the JSON content
        type in the request's header map. */
    method PostJson(env: Methods.Env, payload: string) returns (y: HTTPRequest)
      requires ClientAvailable()
      modifies this, headers
      ensures y == this && DidPostJson(env, payload)
    {
      if headers == null {
        headers := new Methods.HeaderMap();
      }
      var c := Client();
      var reply := Methods.PostJSON(c, env, url, Methods.Text(payload), headers);
      y := this;
      y.response := reply.response;
      y.httpError := reply.err;
    }

    /** GetJson: like Get, setting the JSON content type in the request's
        header map first. */
    method GetJson(env: Methods.Env, payload: Methods.Payload) returns (y: HTTPRequest)
      requires ClientAvailable()
      modifies this, headers
      ensures y == this && DidGetJson(env, payload)
    {
      if headers == null {
        headers := new Methods.HeaderMap();
      }
      var c := Client();
      var reply := Methods.GetJSON(c, env, url, payload, headers);
      y := this;
      y.response := reply.response;
      y.httpError := reply.err;
    }

    /** Post: POSTs the payload as it is. */
    method Post(env: Methods.Env, payload: Methods.Body) returns (y: HTTPRequest)
      requires ClientAvailable()
      modifies this
      ensures y == this && DidPost(env, payload)
    {
      if headers == null {
        headers := new Methods.HeaderMap();
      }
      var c := Client();
      var reply := Methods.Post(c, env, url, payload, headers);
      y := this;
      y.response := reply.response;
      y.httpError := reply.err;
    }

    /** PostForm: POSTs the encoded form, setting the form content type in
        the request's header map. */
    method PostForm(env: Methods.Env, payload: Methods.Form) returns (y: HTTPRequest)
      requires ClientAvailable()
      modifies this, headers
      ensures y == this && DidPostForm(env, payload)
    {
      if headers == null {
        headers := new Methods.HeaderMap();
      }
      var c := Client();
      var reply := Methods.PostForm(c, env, url, payload, headers);
      y := this;
      y.response := reply.response;
      y.httpError := reply.err;
    }

    /** AsyncGet, run on a unit of work whose cancellation state is
        `cancelled`: a cancelled unit returns nothing and touches nothing;
        otherwise the unit does Get and reports its error or the request. */
    method AsyncGet(env: Methods.Env, payload: Methods.Payload, cancelled: bool)
      returns (result: HTTPRequest?, err: Option<Error>)
      requires ClientAvailable()
      modifies this
      ensures cancelled ==> result == null && err == None && unchanged(this)
      ensures !cancelled ==> DidGet(env, payload) && AsyncOutcome(result, err)
    {
      if cancelled {
        return null, None;
      }
      var response := Get(env, payload);
      if response.httpError.Some? {
        return null, response.httpError;
      }
      return this, None;
    }

    /** AsyncPostJson: PostJson behind the same cancellation check. */
    method AsyncPostJson(env: Methods.Env, payload: string, cancelled: bool)
      returns (result: HTTPRequest?, err: Option<Error>)
      requires ClientAvailable()
      modifies this, headers
      ensures cancelled ==> result == null && err == None && unchanged(this)
                             && (headers != null ==> unchanged(headers))
      ensures !cancelled ==> DidPostJson(env, payload) && AsyncOutcome(result, err)
    {
      if cancelled {
        return null, None;
      }
      var response := PostJson(env, payload);
      if response.httpError.Some? {
        return null, response.httpError;
      }
      return this, None;
    }

    /** AsyncGetJson: GetJson behind the same cancellation check. */
    method AsyncGetJson(env: Methods.Env, payload: Methods.Payload, cancelled: bool)
      returns (result: HTTPRequest?, err: Option<Error>)
      requires ClientAvailable()
      modifies this, headers
      ensures cancelled ==> result == null && err == None && unchanged(this)
                             && (headers != null ==> unchanged(headers))
      ensures !cancelled ==> DidGetJson(env, payload) && AsyncOutcome(result, err)
    {
      if cancelled {
        return null, None;
      }
      var response := GetJson(env, payload);
      if response.httpError.Some? {
        return null, response.httpError;
      }
      return this, None;
    }

    /** AsyncPost: Post behind the same cancellation check. */
    method AsyncPost(env: Methods.Env, payload: Methods.Body, cancelled: bool)
      returns (result: HTTPRequest?, err: Option<Error>)
      requires ClientAvailable()
      modifies this
      ensures cancelled ==> result == null && err == None && unchanged(this)
      ensures !cancelled ==> DidPost(env, payload) && AsyncOutcome(result, err)
    {
      if cancelled {
        return null, None;
      }
      var response := Post(env, payload);
      if response.httpError.Some? {
        return null, response.httpError;
      }
      return this, None;
    }
  }

  /** Once a request has built its client, changing the request's settings
      does not change the client it hands out. */
  method CachedClientOutlivesSettings(w: HTTPRequest, timeout: Int64, reqPerSec: Int64)
    returns (first: Clients.Client, second: Clients.Client)
    requires w.ClientAvailable()
    modifies w
    ensures first == second
    ensures old(w.client) == null ==> fresh(first) && first.Config() == Clients.NewClientConfig(ClientOptions(old(w.Settings())))
  {
    first := w.Client();
    w.timeout, w.reqPerSec := timeout, reqPerSec;
    second := w.Client();
  }
}
