/** The verb helpers of the client (GET, POST, DELETE, HEAD and their JSON
    and form variants) and the shared `request` step that builds the
    outgoing request, copies the caller's headers onto it and hands it to
    the client's Do. Request construction, Do and the body encoders belong
    to other code; they are the function-valued fields of an `Env`. */
module Methods {
  import opened Base
  import opened Clients

  datatype Method = MethodGet | MethodPost | MethodDelete | MethodHead

  /** A value the caller hands over as a payload (Go's `interface{}`). */
  datatype Payload = Payload(fields: map<string, string>)

  /** `url.Values`. */
  type Form = map<string, seq<string>>

  /** What a request carries as its body: nothing (nil), a reader over a
      string, or a caller's value passed through as it is. */
  datatype Body = NoBody | Text(content: string) | Value(payload: Payload)

  /** An outgoing `*http.Request`. */
  datatype Request = Request(verb: Method, url: string, body: Body, header: map<string, string>)

  /** The collaborators the verbs call into:
      `urlquery.Marshal` (bytes and error), `url.Values.Encode`,
      the package's `NewRequest`, and the client's `Do`, whose reply may
      depend on everything the client holds. */
  datatype Env = Env(
    marshalQuery: Payload -> (string, Option<Error>),
    encodeForm: Form -> string,
    newRequest: (Method, string, Body) -> Result<Request, Error>,
    doRequest: (ClientConfig, Request) -> Reply)

  const ContentType := "Content-Type"
  const ApplicationJson := "application/json"
  const FormUrlEncoded := "application/x-www-form-urlencoded"

  /** The ordered header map the caller owns and shares by pointer. Only its
      entries are modelled, not their insertion order. */
  class HeaderMap {
    var entries: map<string, string>

    constructor ()
      ensures entries == map[]
    {
      entries := map[];
    }

    method Put(key: string, value: string)
      modifies this
      ensures entries == old(entries)[key := value]
    {
      entries := entries[key := value];
    }
  }

  /** The entries of a header map the caller may pass as nil. A nil map is
      only ever read when the request was built, and then Go dereferences
      nil, so its entries never reach a reply. */
  function EntriesOf(headers: HeaderMap?): (m: map<string, string>)
    reads headers
  {
    if headers == null then map[] else headers.entries
  }

  /** The request as it reaches Do: every header of the caller's map is set
      on it (replacing a header of the same name), the headers it already
      had are kept, and method, URL and body are untouched. */
  function WithHeaders(req: Request, headers: map<string, string>): (out: Request)
    ensures out.verb == req.verb && out.url == req.url && out.body == req.body
    ensures out.header.Keys == req.header.Keys + headers.Keys
    ensures forall k :: k in headers ==> out.header[k] == headers[k]
    ensures forall k :: k in req.header && k !in headers ==> out.header[k] == req.header[k]
  {
    req.(header := req.header + headers)
  }

  /** The reply of one `request` call for a client holding `cfg`. */
  function Exchange(cfg: ClientConfig, env: Env, verb: Method, url: string, body: Body,
                    headers: map<string, string>): (r: Reply)
  {
    match env.newRequest(verb, url, body)
    case Failure(e) => Reply(None, Some(e))
    case Success(req) => env.doRequest(cfg, WithHeaders(req, headers))
  }

  /** When building the request fails, its error is the reply, with no
      response, and Do plays no part: any other Do gives the same reply. */
  lemma ExchangeStopsAtBuildError(cfg: ClientConfig, env: Env, verb: Method, url: string, body: Body,
                                  headers: map<string, string>, otherDo: (ClientConfig, Request) -> Reply)
    requires env.newRequest(verb, url, body).Failure?
    ensures Exchange(cfg, env, verb, url, body, headers)
         == Reply(None, Some(env.newRequest(verb, url, body).error))
    ensures Exchange(cfg, env.(doRequest := otherDo), verb, url, body, headers)
         == Exchange(cfg, env, verb, url, body, headers)
  {
  }

  /** When the request is built, the reply is Do's reply for that request
      with the caller's headers on it. */
  lemma ExchangeSendsBuiltRequest(cfg: ClientConfig, env: Env, verb: Method, url: string, body: Body,
                                  headers: map<string, string>)
    requires env.newRequest(verb, url, body).Success?
    ensures Exchange(cfg, env, verb, url, body, headers)
         == env.doRequest(cfg, WithHeaders(env.newRequest(verb, url, body).value, headers))
  {
  }

  /** The header loop of `request`: sets the caller's headers one by one on
      the outgoing request, in no particular order. */
  method SetHeaders(req: Request, headers: map<string, string>) returns (out: Request)
    ensures out == WithHeaders(req, headers)
  {
    out := req;
    var pending := headers.Keys;
    while pending != {}
      invariant pending <= headers.Keys
      invariant out.verb == req.verb && out.url == req.url && out.body == req.body
      invariant out.header.Keys == req.header.Keys + (headers.Keys - pending)
      invariant forall k :: k in headers && k !in pending ==> out.header[k] == headers[k]
      invariant forall k :: k in req.header && k !in headers ==> out.header[k] == req.header[k]
      decreases pending
    {
      var key :| key in pending;
      out := out.(header := out.header[key := headers[key]]);
      pending := pending - {key};
    }
    assert out.header == req.header + headers;
  }

  /** `request`: build the request, stopping with the build error if there
      is one, set the caller's headers on it, and hand it to Do. The
      caller's header map is only read. A nil map is fine as long as the
      build fails; once the request is built, ranging over a nil map
      dereferences nil. */
  method SendRequest(c: Clients.Client, env: Env, verb: Method, url: string, body: Body, headers: HeaderMap?)
    returns (reply: Reply)
    requires headers != null || env.newRequest(verb, url, body).Failure?
    ensures reply == Exchange(c.Config(), env, verb, url, body, EntriesOf(headers))
  {
    var built := env.newRequest(verb, url, body);
    if built.Failure? {
      return Reply(None, Some(built.error));
    }
    var req := SetHeaders(built.value, headers.entries);
    reply := env.doRequest(c.Config(), req);
  }

  /** Get: a GET to the URL followed by `?` and the encoded query (the `?`
      is there even when the query is empty; an encoding error is dropped
      and whatever bytes came back are used), with an empty body. */
  method Get(c: Clients.Client, env: Env, url: string, payload: Payload, headers: HeaderMap?)
    returns (reply: Reply)
    requires headers != null || env.newRequest(MethodGet, url + "?" + env.marshalQuery(payload).0, Text("")).Failure?
    ensures reply == Exchange(c.Config(), env, MethodGet, url + "?" + env.marshalQuery(payload).0,
                              Text(""), EntriesOf(headers))
  {
    var (bts, _) := env.marshalQuery(payload);
    var target := url + "?" + bts;
    reply := SendRequest(c, env, MethodGet, target, Text(""), headers);
  }

  /** GetJSON: sets `Content-Type: application/json` in the caller's map,
      replacing any earlier value and keeping every other entry, then GETs. */
  method GetJSON(c: Clients.Client, env: Env, url: string, payload: Payload, headers: HeaderMap)
    returns (reply: Reply)
    modifies headers
    ensures headers.entries == old(headers.entries)[ContentType := ApplicationJson]
    ensures reply == Exchange(c.Config(), env, MethodGet, url + "?" + env.marshalQuery(payload).0,
                              Text(""), headers.entries)
  {
    headers.Put(ContentType, ApplicationJson);
    reply := Get(c, env, url, payload, headers);
  }

  /** Post: a POST carrying the body exactly as given. */
  method Post(c: Clients.Client, env: Env, url: string, body: Body, headers: HeaderMap?)
    returns (reply: Reply)
    requires headers != null || env.newRequest(MethodPost, url, body).Failure?
    ensures reply == Exchange(c.Config(), env, MethodPost, url, body, EntriesOf(headers))
  {
    reply := SendRequest(c, env, MethodPost, url, body, headers);
  }

  /** PostJSON: sets `Content-Type: application/json` in the caller's map,
      then POSTs the body as given. */
  method PostJSON(c: Clients.Client, env: Env, url: string, body: Body, headers: HeaderMap)
    returns (reply: Reply)
    modifies headers
    ensures headers.entries == old(headers.entries)[ContentType := ApplicationJson]
    ensures reply == Exchange(c.Config(), env, MethodPost, url, body, headers.entries)
  {
    headers.Put(ContentType, ApplicationJson);
    reply := Post(c, env, url, body, headers);
  }

  /** PostForm: sets the form content type in the caller's map, then POSTs
      the encoded form. */
  method PostForm(c: Clients.Client, env: Env, url: string, data: Form, headers: HeaderMap)
    returns (reply: Reply)
    modifies headers
    ensures headers.entries == old(headers.entries)[ContentType := FormUrlEncoded]
    ensures reply == Exchange(c.Config(), env, MethodPost, url, Text(env.encodeForm(data)), headers.entries)
  {
    headers.Put(ContentType, FormUrlEncoded);
    reply := Post(c, env, url, Text(env.encodeForm(data)), headers);
  }

  /** Delete: a DELETE with no body. */
  method Delete(c: Clients.Client, env: Env, url: string, headers: HeaderMap?) returns (reply: Reply)
    requires headers != null || env.newRequest(MethodDelete, url, NoBody).Failure?
    ensures reply == Exchange(c.Config(), env, MethodDelete, url, NoBody, EntriesOf(headers))
  {
    reply := SendRequest(c, env, MethodDelete, url, NoBody, headers);
  }

  /** Head: a HEAD with no body. */
  method Head(c: Clients.Client, env: Env, url: string, headers: HeaderMap?) returns (reply: Reply)
    requires headers != null || env.newRequest(MethodHead, url, NoBody).Failure?
    ensures reply == Exchange(c.Config(), env, MethodHead, url, NoBody, EntriesOf(headers))
  {
    reply := SendRequest(c, env, MethodHead, url, NoBody, headers);
  }
}
