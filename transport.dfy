/** The HTTP layer shared by every endpoint (`EndpointBase`): URL and verb
    defaulting, redaction of credentials from error bodies, classification of
    failures, the re-wrapping catch, the never-throwing variants, the streaming
    filter and the process-wide client settings. The network itself is an
    input: a send either produced a response or threw. */
module Transport {
  import opened Common
  import opened Providers
  import opened Registry

  datatype HttpVerb = Get | Post | Put | Delete

  /** The runtime type of an exception, as far as the catch blocks tell them apart. */
  datatype ExceptionKind =
    | HttpRequestKind        // HttpRequestException
    | TaskCanceledKind       // TaskCanceledException (timeouts and cancellation)
    | AuthenticationKind     // AuthenticationException
    | ArgumentKind           // ArgumentException
    | FormatKind             // FormatException
    | PlainKind              // System.Exception itself
    | OtherKind(name: string)

  /** Reading a response body as text either worked or threw. */
  datatype BodyRead = Read(text: string) | ReadFailed(error: string)

  /** What `HttpClient.SendAsync` did. */
  datatype SendOutcome = Responded(status: int, body: BodyRead) | Thrown(kind: ExceptionKind, message: string)

  datatype HttpResponse = HttpResponse(status: int, body: BodyRead)

  /** The request as sent: verb and absolute or provider-built URL. */
  datatype OutboundRequest = OutboundRequest(verb: HttpVerb, url: Url)

  /** The exceptions of this layer, with the data their messages carry. */
  datatype Exception =
    | Unauthorized(body: string)
    | ServerError(status: int, body: string, endpoint: CapabilityEndpoint, url: Url)
    | RequestFailed(status: int, body: string, endpoint: CapabilityEndpoint, url: Url)
    | SendFailed(kind: ExceptionKind, message: string)
    | EmptyReplaceKey
    | UrlFormatFailed
    | ContentReadFailed(error: string)
    | ContactFailed(kind: ExceptionKind, verb: HttpVerb, url: Url, inner: Exception)
    | HttpCallFailed(status: int, body: string)
    | TimeoutOutOfRange(seconds: int)
    | ClientAlreadyStarted
    | DecodeFailed(message: string)

  function KindOf(e: Exception): ExceptionKind {
    match e
    case Unauthorized(_) => AuthenticationKind
    case ServerError(_, _, _, _) => HttpRequestKind
    case RequestFailed(_, _, _, _) => HttpRequestKind
    case SendFailed(k, _) => k
    case EmptyReplaceKey => ArgumentKind
    case UrlFormatFailed => FormatKind
    case ContentReadFailed(_) => OtherKind("IOException")
    case ContactFailed(k, _, _, _) => k
    case HttpCallFailed(_, _) => PlainKind
    case TimeoutOutOfRange(_) => OtherKind("ArgumentOutOfRangeException")
    case ClientAlreadyStarted => OtherKind("InvalidOperationException")
    case DecodeFailed(_) => OtherKind("JsonException")
  }

  const ApiKeyMarker: string := "[API KEY REDACTED FOR SECURITY]"
  const OrganizationMarker: string := "[ORGANIZATION REDACTED FOR SECURITY]"
  const ReadFailurePrefix: string := "Additionally, the following error was thrown when attempting to read the response content: "

  const StatusUnauthorized: int := 401
  const StatusInternalServerError: int := 500
  const StatusServiceUnavailable: int := 503

  /** `IsSuccessStatusCode`: the 2xx class (section 15.3 of RFC 9110). */
  predicate IsSuccessStatusCode(status: int) {
    200 <= status <= 299
  }

  /** The error body text: the body, or the read failure described. */
  function ErrorText(body: BodyRead): string {
    match body
    case Read(t) => t
    case ReadFailed(e) => ReadFailurePrefix + e
  }

  /** One `Replace(secret, marker)` when the secret is not null. */
  function ReplaceSecret(text: string, secret: Option<string>, marker: string): (r: Result<string, Exception>)
    ensures r.Err? <==> secret == Some([])
    ensures secret.None? ==> r == Ok(text)
  {
    match secret
    case None => Ok(text)
    case Some(k) => if k == [] then Err(EmptyReplaceKey) else Ok(ReplaceAll(text, k, marker))
  }

  /** The redaction of an error body: the API key, then the organization, each
      replaced by its marker when present. An empty secret makes `Replace`
      throw `ArgumentException`. */
  function Redact(text: string, auth: Option<ProviderAuthentication>): (r: Result<string, Exception>)
    ensures auth.None? ==> r == Ok(text)
    ensures r.Err? <==> auth.Some? && (auth.value.apiKey == Some([]) || auth.value.organization == Some([]))
    ensures r.Err? ==> r.error == EmptyReplaceKey
  {
    match auth
    case None => Ok(text)
    case Some(a) =>
      match ReplaceSecret(text, a.apiKey, ApiKeyMarker)
      case Err(e) => Err(e)
      case Ok(t) => ReplaceSecret(t, a.organization, OrganizationMarker)
  }

  /** A secret that redaction can hide: non-empty, free of brackets, and not
      part of either marker. */
  predicate Hideable(secret: string) {
    secret != [] && '[' !in secret && ']' !in secret
    && Absent(ApiKeyMarker, secret) && Absent(OrganizationMarker, secret)
  }

  /** After redaction neither secret occurs in the body, whatever the body. */
  lemma RedactionHidesSecrets(text: string, a: ProviderAuthentication)
    requires a.apiKey.None? || Hideable(a.apiKey.value)
    requires a.organization.None? || Hideable(a.organization.value)
    ensures Redact(text, Some(a)).Ok?
    ensures a.apiKey.Some? ==> Absent(Redact(text, Some(a)).value, a.apiKey.value)
    ensures a.organization.Some? ==> Absent(Redact(text, Some(a)).value, a.organization.value)
  {
    var t := ReplaceSecret(text, a.apiKey, ApiKeyMarker).value;
    if a.apiKey.Some? {
      var k := a.apiKey.value;
      ReplaceAllKeepsAbsent(text, k, ApiKeyMarker, k);
      if a.organization.Some? {
        ReplaceAllKeepsAbsent(t, a.organization.value, OrganizationMarker, k);
      }
    }
    if a.organization.Some? {
      var o := a.organization.value;
      ReplaceAllKeepsAbsent(t, o, OrganizationMarker, o);
    }
  }

  /** Without the bracket condition the key can survive: a key ending in `[`
      whose replacement starts right after a copy of the key's first part. */
  lemma StraddlingKeySurvives()
    ensures Redact("YY[", Some(ProviderAuthentication(OpenAi, Some("Y["), None))) == Ok("Y" + ApiKeyMarker)
    ensures OccursAt("Y" + ApiKeyMarker, "Y[", 0)
  {
    var s, k := "YY[", "Y[";
    assert s[..2][1] != k[1];
    assert s[1..] == k;
    ReplaceAllWhole(k, ApiKeyMarker);
    assert ReplaceAll(s, k, ApiKeyMarker) == [s[0]] + ReplaceAll(s[1..], k, ApiKeyMarker);
    var r := "Y" + ApiKeyMarker;
    assert r[0..2] == k;
  }

  /** A key that is part of a marker survives redaction as part of that marker. */
  lemma KeyInsideMarkerSurvives()
    ensures Redact("API", Some(ProviderAuthentication(OpenAi, Some("API"), None))) == Ok(ApiKeyMarker)
    ensures OccursAt(ApiKeyMarker, "API", 1)
  {
    ReplaceAllWhole("API", ApiKeyMarker);
    var auth := ProviderAuthentication(OpenAi, Some("API"), None);
    assert ReplaceSecret("API", auth.apiKey, ApiKeyMarker) == Ok(ApiKeyMarker);
    assert ApiKeyMarker[1] == 'A' && ApiKeyMarker[2] == 'P' && ApiKeyMarker[3] == 'I';
    assert ApiKeyMarker[1..4] == "API";
  }

  /** Replacing a whole string by a marker yields the marker. */
  lemma ReplaceAllWhole(k: string, marker: string)
    requires k != []
    ensures ReplaceAll(k, k, marker) == marker
  {
    assert k[..|k|] == k;
    assert k[|k|..] == [];
    assert marker + [] == marker;
  }

  /** The exception chosen by status for a non-2xx response: 401 (section
      15.5.2 of RFC 9110) is an authorization failure, exactly 500 (section
      15.6.1) a server error, anything else a generic failure. */
  function FailureFor(status: int, body: string, endpoint: CapabilityEndpoint, url: Url): (e: Exception)
    ensures e.Unauthorized? <==> status == StatusUnauthorized
    ensures e.ServerError? <==> status == StatusInternalServerError
    ensures !e.Unauthorized? ==> (e.ServerError? || e.RequestFailed?) && KindOf(e) == HttpRequestKind && e.status == status && e.body == body && e.endpoint == endpoint && e.url == url
    ensures e.Unauthorized? ==> e.body == body
  {
    if status == StatusUnauthorized then Unauthorized(body)
    else if status == StatusInternalServerError then ServerError(status, body, endpoint, url)
    else RequestFailed(status, body, endpoint, url)
  }

  /** The kind the catch block gives to what it caught. */
  function RewrappedKind(k: ExceptionKind): ExceptionKind {
    match k
    case HttpRequestKind => HttpRequestKind
    case TaskCanceledKind => TaskCanceledKind
    case _ => PlainKind
  }

  /** The catch block: every exception becomes a new one naming verb and url
      and carrying the original's message. */
  function Rewrap(e: Exception, verb: HttpVerb, url: Url): (r: Exception)
    ensures r.ContactFailed? && r.verb == verb && r.url == url && r.inner == e
    ensures KindOf(r) in {HttpRequestKind, TaskCanceledKind, PlainKind}
    ensures KindOf(r) == KindOf(e) <==> KindOf(e) in {HttpRequestKind, TaskCanceledKind, PlainKind}
  {
    ContactFailed(RewrappedKind(KindOf(e)), verb, url, e)
  }

  /** URL and verb defaulting: a null url is resolved by the provider, any
      other url (absolute or not) is used unchanged; the verb defaults to GET.
      A Groq template that does not format throws before the request exists. */
  function ResolveRequest(provider: EndpointProvider, endpoint: CapabilityEndpoint, url: Option<string>, verb: Option<HttpVerb>): (r: Result<OutboundRequest, Exception>)
    reads provider.Api
    ensures url.Some? ==> r == Ok(OutboundRequest(verb.GetOr(Get), Literal(url.value)))
    ensures url.None? && provider.ApiUrl(endpoint, None).Ok? ==> r == Ok(OutboundRequest(verb.GetOr(Get), provider.ApiUrl(endpoint, None).value))
    ensures r.Err? <==> url.None? && provider.ApiUrl(endpoint, None).Err?
    ensures r.Err? ==> r.error == UrlFormatFailed
  {
    var v := verb.GetOr(Get);
    match url
    case Some(u) => Ok(OutboundRequest(v, Literal(u)))
    case None =>
      match provider.ApiUrl(endpoint, None)
      case Ok(resolved) => Ok(OutboundRequest(v, resolved))
      case Err(_) => Err(UrlFormatFailed)
  }

  /** The exception the try block throws for a response, or none on 2xx. */
  function ResponseFailure(status: int, body: BodyRead, auth: Option<ProviderAuthentication>, endpoint: CapabilityEndpoint, url: Url): Option<Exception> {
    if IsSuccessStatusCode(status) then None
    else
      match Redact(ErrorText(body), auth)
      case Err(e) => Some(e)
      case Ok(text) => Some(FailureFor(status, text, endpoint, url))
  }

  /** `HttpRequestRaw`: the response on 2xx; otherwise the redacted,
      classified and then re-wrapped exception. `auth` is the credential record
      of the provider registered for `provider.Provider`. */
  function HttpRequestRaw(provider: EndpointProvider, endpoint: CapabilityEndpoint, url: Option<string>, verb: Option<HttpVerb>,
                          outcome: SendOutcome, auth: Option<ProviderAuthentication>): (r: Result<HttpResponse, Exception>)
    reads provider.Api
    ensures r.Ok? <==> ResolveRequest(provider, endpoint, url, verb).Ok? && outcome.Responded? && IsSuccessStatusCode(outcome.status)
    ensures r.Ok? ==> r.value == HttpResponse(outcome.status, outcome.body)
    ensures r.Err? && ResolveRequest(provider, endpoint, url, verb).Ok? ==>
              var req := ResolveRequest(provider, endpoint, url, verb).value;
              r.error.ContactFailed? && r.error.verb == req.verb && r.error.url == req.url
    ensures ResolveRequest(provider, endpoint, url, verb).Err? ==> r == Err(UrlFormatFailed)
    ensures ResolveRequest(provider, endpoint, url, verb).Ok? && outcome.Thrown? ==>
              r.Err? && r.error.inner == SendFailed(outcome.kind, outcome.message)
    ensures ResolveRequest(provider, endpoint, url, verb).Ok? && outcome.Responded? && !IsSuccessStatusCode(outcome.status) ==>
              var req := ResolveRequest(provider, endpoint, url, verb).value;
              var redacted := Redact(ErrorText(outcome.body), auth);
              && r.Err?
              && (redacted.Err? ==> r.error.inner == EmptyReplaceKey)
              && (redacted.Ok? ==> r.error.inner == FailureFor(outcome.status, redacted.value, endpoint, req.url))
  {
    match ResolveRequest(provider, endpoint, url, verb)
    case Err(e) => Err(e)
    case Ok(req) =>
      match outcome
      case Thrown(k, m) => Err(Rewrap(SendFailed(k, m), req.verb, req.url))
      case Responded(status, body) =>
        match ResponseFailure(status, body, auth, endpoint, req.url)
        case None => Ok(HttpResponse(status, body))
        case Some(e) => Err(Rewrap(e, req.verb, req.url))
  }

  /** No exception of `HttpRequestRaw` other than a malformed Groq template is
      an `AuthenticationException`: a 401 leaves it as a plain `Exception`
      wrapping the authorization failure, which carries the redacted body. */
  lemma UnauthorizedBecomesPlain(provider: EndpointProvider, endpoint: CapabilityEndpoint, url: Option<string>, verb: Option<HttpVerb>,
                                 text: string, auth: Option<ProviderAuthentication>)
    requires ResolveRequest(provider, endpoint, url, verb).Ok?
    requires Redact(text, auth).Ok?
    ensures var r := HttpRequestRaw(provider, endpoint, url, verb, Responded(StatusUnauthorized, Read(text)), auth);
            r.Err? && KindOf(r.error) == PlainKind && r.error.inner == Unauthorized(Redact(text, auth).value)
  {
  }

  /** Whatever the status, the body an error of `HttpRequestRaw` carries has
      neither secret in it, for secrets that redaction can hide. */
  lemma FailureBodyHidesSecrets(provider: EndpointProvider, endpoint: CapabilityEndpoint, url: Option<string>, verb: Option<HttpVerb>,
                                status: int, body: BodyRead, a: ProviderAuthentication)
    requires ResolveRequest(provider, endpoint, url, verb).Ok? && !IsSuccessStatusCode(status)
    requires a.apiKey.None? || Hideable(a.apiKey.value)
    requires a.organization.None? || Hideable(a.organization.value)
    ensures var r := HttpRequestRaw(provider, endpoint, url, verb, Responded(status, body), Some(a));
            && r.Err? && r.error.ContactFailed?
            && (r.error.inner.Unauthorized? || r.error.inner.ServerError? || r.error.inner.RequestFailed?)
            && (a.apiKey.Some? ==> Absent(r.error.inner.body, a.apiKey.value))
            && (a.organization.Some? ==> Absent(r.error.inner.body, a.organization.value))
  {
    RedactionHidesSecrets(ErrorText(body), a);
  }

  /** Every failure of `HttpRequestRaw` after URL resolution is one of the
      three kinds the catch block produces. */
  lemma HttpRequestRawKinds(provider: EndpointProvider, endpoint: CapabilityEndpoint, url: Option<string>, verb: Option<HttpVerb>,
                            outcome: SendOutcome, auth: Option<ProviderAuthentication>)
    requires ResolveRequest(provider, endpoint, url, verb).Ok?
    ensures var r := HttpRequestRaw(provider, endpoint, url, verb, outcome, auth);
            r.Err? ==> KindOf(r.error) in {HttpRequestKind, TaskCanceledKind, PlainKind}
  {
  }

  /** A response or an exception, with the request either way. */
  datatype RestDataOrException = RestData(response: HttpResponse, request: OutboundRequest) | RestException(exception: Exception, request: OutboundRequest)

  /** `HttpRequestRawWithAllCodes`: never throws once the request exists. */
  function HttpRequestRawWithAllCodes(provider: EndpointProvider, endpoint: CapabilityEndpoint, url: Option<string>, verb: Option<HttpVerb>,
                                      outcome: SendOutcome, auth: Option<ProviderAuthentication>): (r: Result<RestDataOrException, Exception>)
    reads provider.Api
    ensures r.Err? <==> ResolveRequest(provider, endpoint, url, verb).Err?
    ensures r.Ok? ==> r.value.request == ResolveRequest(provider, endpoint, url, verb).value
    ensures r.Ok? ==> (r.value.RestData? <==> outcome.Responded? && IsSuccessStatusCode(outcome.status))
    ensures r.Ok? && r.value.RestData? ==> r.value.response == HttpResponse(outcome.status, outcome.body)
    ensures r.Ok? && outcome.Thrown? ==> r.value.exception == SendFailed(outcome.kind, outcome.message)
    ensures r.Ok? && outcome.Responded? && !IsSuccessStatusCode(outcome.status) && Redact(ErrorText(outcome.body), auth).Ok? ==>
              r.value.exception == HttpCallFailed(outcome.status, Redact(ErrorText(outcome.body), auth).value)
    ensures r.Ok? && outcome.Responded? && !IsSuccessStatusCode(outcome.status) && Redact(ErrorText(outcome.body), auth).Err? ==>
              r.value.exception == EmptyReplaceKey
  {
    match ResolveRequest(provider, endpoint, url, verb)
    case Err(e) => Err(e)
    case Ok(req) =>
      match outcome
      case Thrown(k, m) => Ok(RestException(SendFailed(k, m), req))
      case Responded(status, body) =>
        if IsSuccessStatusCode(status) then Ok(RestData(HttpResponse(status, body), req))
        else
          match Redact(ErrorText(body), auth)
          case Err(e) => Ok(RestException(e, req))
          case Ok(text) => Ok(RestException(HttpCallFailed(status, text), req))
  }

  /** `HttpCallResult<T>`: status, body text, decoded data, success flag and exception. */
  datatype HttpCallResult<T> = HttpCallResult(code: int, response: Option<string>, data: Option<T>, ok: bool, exception: Option<Exception>)

  /** A vendor's decoder of a response body (`InboundMessage<T>`): a
      result, null (`None`), or an exception such as malformed JSON. */
  type Decoder<T> = string -> Result<Option<T>, Exception>

  /** `HttpRequestRaw<T>`, the typed safe call. Every failure of
      `HttpRequestRawWithAllCodes` becomes a Service Unavailable result that
      carries its exception; only a URL that cannot be built, a 2xx body that
      cannot be read and a decoder that throws escape. */
  function HttpRequestRawTyped<T>(provider: EndpointProvider, endpoint: CapabilityEndpoint, url: Option<string>, verb: Option<HttpVerb>,
                                  outcome: SendOutcome, auth: Option<ProviderAuthentication>, decode: Decoder<T>): (r: Result<HttpCallResult<T>, Exception>)
    reads provider.Api
    ensures r.Err? <==> ResolveRequest(provider, endpoint, url, verb).Err?
                        || (outcome.Responded? && IsSuccessStatusCode(outcome.status)
                            && (outcome.body.ReadFailed? || decode(outcome.body.text).Err?))
    ensures ResolveRequest(provider, endpoint, url, verb).Err? ==> r == Err(UrlFormatFailed)
    ensures ResolveRequest(provider, endpoint, url, verb).Ok? && outcome.Responded? && IsSuccessStatusCode(outcome.status) ==>
              && (outcome.body.ReadFailed? ==> r == Err(ContentReadFailed(outcome.body.error)))
              && (outcome.body.Read? && decode(outcome.body.text).Err? ==> r == Err(decode(outcome.body.text).error))
    ensures r.Ok? && r.value.ok <==> ResolveRequest(provider, endpoint, url, verb).Ok? && outcome.Responded? && IsSuccessStatusCode(outcome.status)
                                     && outcome.body.Read? && decode(outcome.body.text).Ok?
    ensures r.Ok? && r.value.ok ==> r.value == HttpCallResult(outcome.status, Some(outcome.body.text), decode(outcome.body.text).value, true, None)
    ensures r.Ok? && !r.value.ok ==>
              && r.value.code == StatusServiceUnavailable && r.value.data.None? && r.value.response.None?
              && r.value.exception == Some(HttpRequestRawWithAllCodes(provider, endpoint, url, verb, outcome, auth).value.exception)
  {
    match HttpRequestRawWithAllCodes(provider, endpoint, url, verb, outcome, auth)
    case Err(e) => Err(e)
    case Ok(RestException(e, _)) => Ok(HttpCallResult(StatusServiceUnavailable, None, None, false, Some(e)))
    case Ok(RestData(response, _)) =>
      match response.body
      case ReadFailed(err) => Err(ContentReadFailed(err))
      case Read(text) =>
        match decode(text)
        case Err(e) => Err(e)
        case Ok(data) => Ok(HttpCallResult(response.status, Some(text), data, true, None))
  }

  /** `HttpRequest<T>`: `HttpRequestRaw`, then the body read as a string (a
      failed read throws), then decoded by the provider; `None` is a null
      result. Every failure is `HttpRequestRaw`'s own, the read's or the
      decoder's. */
  function HttpRequest<T>(provider: EndpointProvider, endpoint: CapabilityEndpoint, url: Option<string>, verb: Option<HttpVerb>,
                          outcome: SendOutcome, auth: Option<ProviderAuthentication>, decode: Decoder<T>): (r: Result<Option<T>, Exception>)
    reads provider.Api
    ensures r.Ok? <==> HttpRequestRaw(provider, endpoint, url, verb, outcome, auth).Ok? && outcome.Responded? && outcome.body.Read?
                       && decode(outcome.body.text).Ok?
    ensures r.Ok? ==> r.value == decode(outcome.body.text).value
    ensures r.Err? && HttpRequestRaw(provider, endpoint, url, verb, outcome, auth).Err? ==>
              r.error == HttpRequestRaw(provider, endpoint, url, verb, outcome, auth).error
    ensures r.Err? && HttpRequestRaw(provider, endpoint, url, verb, outcome, auth).Ok? ==>
              && outcome.Responded?
              && (outcome.body.ReadFailed? ==> r.error == ContentReadFailed(outcome.body.error))
              && (outcome.body.Read? ==> r.error == decode(outcome.body.text).error)
  {
    match HttpRequestRaw(provider, endpoint, url, verb, outcome, auth)
    case Err(e) => Err(e)
    case Ok(response) =>
      match response.body
      case ReadFailed(err) => Err(ContentReadFailed(err))
      case Read(text) => decode(text)
  }

  /** An item of a stream, stamped with the provider that decoded it. */
  datatype Stamped<T> = Stamped(item: T, provider: EndpointProvider)

  function StampAll<T>(items: seq<T>, provider: EndpointProvider): (r: seq<Stamped<T>>)
    ensures |r| == |items|
    ensures forall i | 0 <= i < |r| :: r[i] == Stamped(items[i], provider)
  {
    if items == [] then [] else StampAll(items[..|items| - 1], provider) + [Stamped(items[|items| - 1], provider)]
  }

  /** `HttpStreamingRequest<T>`: the handshake goes through `HttpRequestRaw`,
      so a failure surfaces as its exception; then the decoded frames are
      filtered, null ones skipped and the rest yielded in arrival order, each
      stamped with the provider. */
  method HttpStreamingRequest<T>(provider: EndpointProvider, endpoint: CapabilityEndpoint, url: Option<string>, verb: Option<HttpVerb>,
                                 outcome: SendOutcome, auth: Option<ProviderAuthentication>, frames: seq<Option<T>>)
    returns (items: seq<Stamped<T>>, failure: Option<Exception>)
    ensures HttpRequestRaw(provider, endpoint, url, verb, outcome, auth).Err? ==>
              items == [] && failure == Some(HttpRequestRaw(provider, endpoint, url, verb, outcome, auth).error)
    ensures HttpRequestRaw(provider, endpoint, url, verb, outcome, auth).Ok? ==>
              failure == None && items == StampAll(Present(frames), provider)
  {
    var handshake := HttpRequestRaw(provider, endpoint, url, verb, outcome, auth);
    if handshake.Err? {
      return [], Some(handshake.error);
    }
    items, failure := [], None;
    for i := 0 to |frames|
      invariant items == StampAll(Present(frames[..i]), provider)
    {
      assert frames[..i + 1][..i] == frames[..i];
      var x := frames[i];
      if x.None? {
        continue;
      }
      items := items + [Stamped(x.value, provider)];
    }
    assert frames[..|frames|] == frames;
  }

  /** `TornadoStreamRequest`: the handshake of a stream, with its exception,
      the request, and the response when there is one. */
  datatype TornadoStreamRequest = TornadoStreamRequest(exception: Option<Exception>, callRequest: Option<OutboundRequest>, response: Option<HttpResponse>)

  /** `HttpStreamingRequestData`: the never-throwing handshake of a stream. */
  function HttpStreamingRequestData(provider: EndpointProvider, endpoint: CapabilityEndpoint, url: Option<string>, verb: Option<HttpVerb>,
                                    outcome: SendOutcome, auth: Option<ProviderAuthentication>): (r: Result<TornadoStreamRequest, Exception>)
    reads provider.Api
    ensures r.Err? <==> ResolveRequest(provider, endpoint, url, verb).Err?
    ensures r.Ok? ==> r.value.callRequest == Some(ResolveRequest(provider, endpoint, url, verb).value)
    ensures r.Ok? ==> (r.value.exception.None? <==> outcome.Responded? && IsSuccessStatusCode(outcome.status))
    ensures r.Ok? ==> (r.value.response.Some? <==> r.value.exception.None?)
  {
    match HttpRequestRawWithAllCodes(provider, endpoint, url, verb, outcome, auth)
    case Err(e) => Err(e)
    case Ok(RestException(e, req)) => Ok(TornadoStreamRequest(Some(e), Some(req), None))
    case Ok(RestData(response, req)) => Ok(TornadoStreamRequest(None, Some(req), Some(response)))
  }

  /** The largest timeout `HttpClient` accepts: `int.MaxValue` milliseconds. */
  const MaxTimeoutMilliseconds: int := 0x7FFF_FFFF

  /** A whole number of seconds the `HttpClient.Timeout` setter accepts:
      positive and at most `int.MaxValue` milliseconds. */
  predicate TimeoutInRange(seconds: int) {
    0 < seconds && seconds * 1000 <= MaxTimeoutMilliseconds
  }

  /** An HTTP client: its timeout, and whether it has sent a request. */
  datatype HttpClient = HttpClient(timeout: int, started: bool)

  /** The `Timeout` setter: a value out of range, then a client that has
      already sent, throw. */
  function WithTimeout(c: HttpClient, seconds: int): (r: Result<HttpClient, Exception>)
    ensures r.Ok? <==> TimeoutInRange(seconds) && !c.started
    ensures r.Ok? ==> r.value == c.(timeout := seconds)
    ensures !TimeoutInRange(seconds) ==> r == Err(TimeoutOutOfRange(seconds))
    ensures TimeoutInRange(seconds) && c.started ==> r == Err(ClientAlreadyStarted)
  {
    if !TimeoutInRange(seconds) then Err(TimeoutOutOfRange(seconds))
    else if c.started then Err(ClientAlreadyStarted)
    else Ok(c.(timeout := seconds))
  }

  /** Whether the vendor's client exists and has sent a request. */
  predicate HasStarted(clients: map<LLmProviders, HttpClient>, provider: LLmProviders) {
    provider in clients && clients[provider].started
  }

  /** The position of the first vendor of `ms` whose client has sent a
      request, or `|ms|` when none has. */
  function FirstStarted(clients: map<LLmProviders, HttpClient>, ms: seq<LLmProviders>): (k: nat)
    ensures k <= |ms|
    ensures k < |ms| ==> HasStarted(clients, ms[k])
    ensures forall j | 0 <= j < k :: !HasStarted(clients, ms[j])
  {
    if ms == [] then 0
    else if HasStarted(clients, ms[0]) then 0
    else 1 + FirstStarted(clients, ms[1..])
  }

  /** The client a vendor has, or the one it gets on first use. */
  function Prior(clients: map<LLmProviders, HttpClient>, provider: LLmProviders, timeout: int): HttpClient {
    if provider in clients then clients[provider] else HttpClient(timeout, false)
  }

  /** What a pass of `SetRequestsTimeout` leaves: the exception that ended it, if any, and the clients. */
  datatype TimeoutRun = TimeoutRun(failure: Option<Exception>, clients: map<LLmProviders, HttpClient>)

  /** The pass of `SetRequestsTimeout` over the vendors `ms`, `timeout` being
      the stored timeout new clients get: each client is fetched or created
      and given the new value, and the first setter that throws ends the
      pass, leaving the client it stopped at created. */
  function TimeoutPass(clients: map<LLmProviders, HttpClient>, ms: seq<LLmProviders>, seconds: int, timeout: int): TimeoutRun
    decreases |ms|
  {
    if ms == [] then TimeoutRun(None, clients)
    else
      var c := Prior(clients, ms[0], timeout);
      match WithTimeout(c, seconds)
      case Err(e) => TimeoutRun(Some(e), clients[ms[0] := c])
      case Ok(updated) => TimeoutPass(clients[ms[0] := updated], ms[1..], seconds, timeout)
  }

  /** Where the pass stops: at the first vendor for a value the setter
      rejects, otherwise at the first vendor whose client has sent. */
  function TimeoutStop(clients: map<LLmProviders, HttpClient>, ms: seq<LLmProviders>, seconds: int): (k: nat)
    ensures k <= |ms|
  {
    if TimeoutInRange(seconds) then FirstStarted(clients, ms) else 0
  }

  /** Giving a vendor that has not sent a client that has not sent moves no
      other vendor's start. */
  lemma {:induction false} FirstStartedUnchanged(clients: map<LLmProviders, HttpClient>, m: LLmProviders, c: HttpClient, ms: seq<LLmProviders>)
    requires !HasStarted(clients, m) && !c.started
    ensures FirstStarted(clients[m := c], ms) == FirstStarted(clients, ms)
    decreases |ms|
  {
    if ms != [] {
      assert HasStarted(clients[m := c], ms[0]) == HasStarted(clients, ms[0]);
      FirstStartedUnchanged(clients, m, c, ms[1..]);
    }
  }

  /** The pass fails exactly when it stops before the end, with the
      out-of-range exception for a rejected value and the started-client
      exception otherwise. */
  lemma {:induction false} TimeoutPassOutcome(clients: map<LLmProviders, HttpClient>, ms: seq<LLmProviders>, seconds: int, timeout: int)
    ensures var stop := TimeoutStop(clients, ms, seconds);
            var r := TimeoutPass(clients, ms, seconds, timeout);
            && (r.failure.None? <==> stop == |ms|)
            && (r.failure.Some? ==> r.failure.value == (if TimeoutInRange(seconds) then ClientAlreadyStarted else TimeoutOutOfRange(seconds)))
    decreases |ms|
  {
    if ms != [] && TimeoutInRange(seconds) && !HasStarted(clients, ms[0]) {
      var updated := Prior(clients, ms[0], timeout).(timeout := seconds);
      FirstStartedUnchanged(clients, ms[0], updated, ms[1..]);
      TimeoutPassOutcome(clients[ms[0] := updated], ms[1..], seconds, timeout);
    }
  }

  /** What the pass leaves for one vendor: a vendor before the stop has its
      earlier client (or a new one) with the new timeout, the vendor at the
      stop has its earlier client or a new one with the stored timeout, and
      every other vendor is as it was. */
  lemma {:induction false} TimeoutPassClient(clients: map<LLmProviders, HttpClient>, ms: seq<LLmProviders>, seconds: int, timeout: int, p: LLmProviders)
    ensures var stop := TimeoutStop(clients, ms, seconds);
            var r := TimeoutPass(clients, ms, seconds, timeout);
            && (p in ms[..stop] ==> p in r.clients && r.clients[p] == Prior(clients, p, timeout).(timeout := seconds))
            && (stop < |ms| && p == ms[stop] ==> p in r.clients && r.clients[p] == Prior(clients, p, timeout))
            && (p !in ms[..stop] && (stop < |ms| ==> p != ms[stop]) ==>
                  (p in r.clients <==> p in clients) && (p in clients ==> r.clients[p] == clients[p]))
    decreases |ms|
  {
    if ms != [] && TimeoutInRange(seconds) && !HasStarted(clients, ms[0]) {
      var updated := Prior(clients, ms[0], timeout).(timeout := seconds);
      var next := clients[ms[0] := updated];
      FirstStartedUnchanged(clients, ms[0], updated, ms[1..]);
      TimeoutPassClient(next, ms[1..], seconds, timeout, p);
      var stop := TimeoutStop(clients, ms, seconds);
      assert ms[..stop] == [ms[0]] + ms[1..][..stop - 1];
      if p != ms[0] {
        assert Prior(next, p, timeout) == Prior(clients, p, timeout);
      }
    }
  }

  const DefaultUserAgent: string := "Mozilla/5.0 (Windows NT 10.0; Win64; x64) AppleWebKit/537.36 (KHTML, like Gecko) Chrome/125.0.0.0 Safari/537.36"
  const DefaultTimeoutSeconds: int := 600

  /** The process-wide settings of `EndpointBase`: the user agent, the request
      timeout in seconds and the table of per-vendor clients, each created on
      first use. `Members` are the values of the vendor enumeration, the keys
      of the table, in declaration order. */
  class ClientTable {
    const Members: seq<LLmProviders>
    var userAgent: string
    var endpointTimeout: int
    /** The clients created so far. */
    var clients: map<LLmProviders, HttpClient>

    predicate Valid()
      reads this
    {
      && Members != []
      && TimeoutInRange(endpointTimeout)
      && (forall p | p in clients :: p in Members)
    }

    constructor (members: seq<LLmProviders>)
      requires members != []
      ensures Valid()
      ensures Members == members && userAgent == DefaultUserAgent && endpointTimeout == DefaultTimeoutSeconds && clients == map[]
    {
      Members := members;
      userAgent := DefaultUserAgent;
      endpointTimeout := DefaultTimeoutSeconds;
      clients := map[];
    }

    /** The client for a vendor, created with the current timeout on first use. */
    method GetClient(provider: LLmProviders) returns (c: HttpClient)
      requires Valid() && provider in Members
      modifies this`clients
      ensures Valid()
      ensures provider in old(clients) ==> c == old(clients)[provider] && clients == old(clients)
      ensures provider !in old(clients) ==> c == HttpClient(endpointTimeout, false) && clients == old(clients)[provider := c]
    {
      if provider in clients {
        c := clients[provider];
      } else {
        c := HttpClient(endpointTimeout, false);
        clients := clients[provider := c];
      }
    }

    /** A request of `HttpRequestRaw` or `HttpRequestRawWithAllCodes` goes
        out through the vendor's client, which is then started. */
    method SendThrough(provider: LLmProviders)
      requires Valid() && provider in Members
      modifies this`clients
      ensures Valid()
      ensures provider in old(clients) ==> clients == old(clients)[provider := old(clients)[provider].(started := true)]
      ensures provider !in old(clients) ==> clients == old(clients)[provider := HttpClient(endpointTimeout, true)]
    {
      var c := GetClient(provider);
      clients := clients[provider := c.(started := true)];
    }

    function GetRequestsTimeout(): int
      reads this
    {
      endpointTimeout
    }

    /** Visits the vendors in order, creating each missing client and setting
        its timeout; a setter that throws ends the call, and the stored
        timeout is set only when every client took the new value. */
    method SetRequestsTimeout(seconds: int) returns (failure: Option<Exception>)
      requires Valid()
      modifies this`clients, this`endpointTimeout
      ensures Valid()
      ensures TimeoutRun(failure, clients) == TimeoutPass(old(clients), Members, seconds, old(endpointTimeout))
      ensures endpointTimeout == if failure.None? then seconds else old(endpointTimeout)
    {
      for i := 0 to |Members|
        invariant Valid() && endpointTimeout == old(endpointTimeout)
        invariant TimeoutPass(clients, Members[i..], seconds, endpointTimeout) == TimeoutPass(old(clients), Members, seconds, endpointTimeout)
      {
        ghost var before := clients;
        assert Members[i..][1..] == Members[i + 1..];
        var c := GetClient(Members[i]);
        assert c == Prior(before, Members[i], endpointTimeout) && clients == before[Members[i] := c];
        match WithTimeout(c, seconds)
        case Err(e) =>
          return Some(e);
        case Ok(updated) =>
          assert clients[Members[i] := updated] == before[Members[i] := updated];
          clients := clients[Members[i] := updated];
      }
      endpointTimeout := seconds;
      failure := None;
    }

    method SetUserAgent(ua: string)
      modifies this`userAgent
      ensures GetUserAgent() == ua
    {
      userAgent := ua;
    }

    function GetUserAgent(): string
      reads this
    {
      userAgent
    }
  }

  /** Before any request, setting a valid timeout and reading it back
      round-trips, and a client created afterwards gets it as well. */
  method TimeoutThenNewClient(table: ClientTable, seconds: int, provider: LLmProviders) returns (c: HttpClient)
    requires table.Valid() && provider in table.Members && TimeoutInRange(seconds)
    requires forall p | p in table.clients :: !table.clients[p].started
    modifies table
    ensures table.GetRequestsTimeout() == seconds && c.timeout == seconds
  {
    ghost var before, timeout := table.clients, table.endpointTimeout;
    var failure := table.SetRequestsTimeout(seconds);
    TimeoutPassOutcome(before, table.Members, seconds, timeout);
    TimeoutPassClient(before, table.Members, seconds, timeout, provider);
    assert table.Members[..|table.Members|] == table.Members;
    c := table.GetClient(provider);
  }

  /** Once a request has gone out, setting the timeout throws: the stored
      timeout is unchanged, although the clients before the started one
      already have the new value. */
  method TimeoutAfterRequestFails(table: ClientTable, seconds: int, provider: LLmProviders) returns (failure: Option<Exception>)
    requires table.Valid() && provider in table.Members && TimeoutInRange(seconds)
    modifies table
    ensures failure == Some(ClientAlreadyStarted) && table.GetRequestsTimeout() == old(table.GetRequestsTimeout())
  {
    table.SendThrough(provider);
    ghost var before, timeout := table.clients, table.endpointTimeout;
    ghost var j :| 0 <= j < |table.Members| && table.Members[j] == provider;
    assert HasStarted(before, table.Members[j]);
    failure := table.SetRequestsTimeout(seconds);
    TimeoutPassOutcome(before, table.Members, seconds, timeout);
  }
}
