/** The chat endpoint (`ChatEndpoint`): the positional overloads merged over
    `DefaultChatRequestArgs`, the blocking and the never-throwing calls with
    the request interceptor, and the streaming state machine. The HTTP outcome,
    the provider's decoder and the decoded stream frames are inputs. */
module Chat {
  import opened Common
  import opened Providers
  import opened Registry
  import opened Transport
  import opened Messages
  import opened ChatRequests

  /** A chat result, opaque here (the vendors' decoders build it). */
  datatype ChatResult = ChatResult(id: nat)

  /** The request the positional overloads build: a copy of the defaults with
      the messages replaced and each given argument replacing its default.
      `stopSequences` is a `params` array, so a caller who passes none passes
      an empty list. */
  function MergedState(defaults: RequestState, messages: seq<ChatMessage>, model: Option<ChatModel>,
                       temperature: Option<real>, topP: Option<real>, numOutputs: Option<int>, maxTokens: Option<int>,
                       frequencyPenalty: Option<real>, presencePenalty: Option<real>,
                       logitBias: Option<map<string, real>>, stopSequences: Option<seq<string>>): (r: RequestState)
    ensures r.messages == Some(messages)
    ensures r.model == (if model.Some? then model else defaults.model)
    ensures r.temperature == (if temperature.Some? then temperature else defaults.temperature)
    ensures r.topP == (if topP.Some? then topP else defaults.topP)
    ensures r.numChoicesPerMessage == (if numOutputs.Some? then numOutputs else defaults.numChoicesPerMessage)
    ensures r.maxTokens == (if maxTokens.Some? then maxTokens else defaults.maxTokens)
    ensures r.frequencyPenalty == (if frequencyPenalty.Some? then frequencyPenalty else defaults.frequencyPenalty)
    ensures r.presencePenalty == (if presencePenalty.Some? then presencePenalty else defaults.presencePenalty)
    ensures r.logitBias == (if logitBias.Some? then logitBias else defaults.logitBias)
    ensures r.multipleStopSequences == (if stopSequences.Some? then stopSequences else defaults.multipleStopSequences)
    ensures r.(messages := defaults.messages, model := defaults.model, temperature := defaults.temperature,
               topP := defaults.topP, numChoicesPerMessage := defaults.numChoicesPerMessage,
               maxTokens := defaults.maxTokens, frequencyPenalty := defaults.frequencyPenalty,
               presencePenalty := defaults.presencePenalty, logitBias := defaults.logitBias,
               multipleStopSequences := defaults.multipleStopSequences)
            == CopiedState(defaults)
  {
    CopiedState(defaults).(
      messages := Some(messages),
      model := model.OrElse(defaults.model),
      temperature := temperature.OrElse(defaults.temperature),
      topP := topP.OrElse(defaults.topP),
      numChoicesPerMessage := numOutputs.OrElse(defaults.numChoicesPerMessage),
      multipleStopSequences := stopSequences.OrElse(defaults.multipleStopSequences),
      maxTokens := maxTokens.OrElse(defaults.maxTokens),
      frequencyPenalty := frequencyPenalty.OrElse(defaults.frequencyPenalty),
      presencePenalty := presencePenalty.OrElse(defaults.presencePenalty),
      logitBias := logitBias.OrElse(defaults.logitBias))
  }

  /** Omitting the stop sequences of a positional overload discards the
      defaults' stop sequences: the request is sent with no `stop` at all. */
  lemma OmittedStopsDiscardDefaults(defaults: RequestState, messages: seq<ChatMessage>)
    ensures var r := MergedState(defaults, messages, None, None, None, None, None, None, None, None, Some([]));
            r.multipleStopSequences == Some([]) && CompiledStop(r.multipleStopSequences) == NoStop
  {
  }

  /** The message `new ChatMessage(ChatMessageRoles.User, text)`. */
  function UserMessage(text: string): (m: ChatMessage)
    ensures m.role == Some(User) && m.content == Some(text) && m.parts.None? && m.toolCalls.None?
  {
    ChatMessage(Some(User), Some("user"), None, None, None, Some(text), None)
  }

  /** The user-text overload's messages: one user message per string, in order. */
  function UserMessages(texts: seq<string>): (r: seq<ChatMessage>)
    ensures |r| == |texts|
    ensures forall i | 0 <= i < |texts| :: r[i] == UserMessage(texts[i])
  {
    seq(|texts|, i requires 0 <= i < |texts| => UserMessage(texts[i]))
  }

  /** Items paired with their positions, as `StreamCompletionAsync` hands them
      to its callback. */
  function Indexed<T>(items: seq<T>): (r: seq<(int, T)>)
    ensures |r| == |items|
    ensures forall i | 0 <= i < |items| :: r[i] == (i, items[i])
  {
    seq(|items|, i requires 0 <= i < |items| => (i, items[i]))
  }

  /** `ChatStreamEventHandler`: whether its two hooks are set. */
  datatype StreamHandler = StreamHandler(hasHttpExceptionHandler: bool, hasOutboundHttpRequestHandler: bool)

  /** `HttpFailedRequest`, as the exception hook receives it. */
  datatype HttpFailedRequest = HttpFailedRequest(exception: Exception, request: Option<OutboundRequest>, response: Option<HttpResponse>)

  datatype StreamPhase = NotStarted | Streaming | Ended

  /** One `StreamChatReal` enumeration. The handshake's HTTP outcome and the
      frames the provider decodes from the body are fixed when the stream is
      created; `MoveNext` runs the iterator body up to its next `yield`. */
  class ChatStream {
    /** The copy of the caller's request that the stream sends. */
    const Request: ChatRequest
    const Provider: EndpointProvider
    const Handler: Option<StreamHandler>
    const ReasoningModels: set<ChatModel>
    const Outcome: SendOutcome
    const Auth: Option<ProviderAuthentication>
    const Frames: seq<Option<ChatResult>>

    var Phase: StreamPhase
    /** Frames consumed so far. */
    var Cursor: nat
    /** Results yielded so far, and the last one. */
    var Yielded: seq<ChatResult>
    var Current: Option<ChatResult>
    /** `DisposeAsync` calls on the stream request. */
    var DisposeCount: nat
    /** Calls of the handler's two hooks. */
    var ExceptionHandlerCalls: seq<HttpFailedRequest>
    var OutboundHandlerCalls: seq<OutboundRequest>
    /** The serialized request, once sent. */
    var Sent: Option<TornadoRequestContent>

    predicate Valid()
      reads this
    {
      Cursor <= |Frames| &&
      match Phase
      case NotStarted =>
        Cursor == 0 && Yielded == [] && DisposeCount == 0 && ExceptionHandlerCalls == [] && OutboundHandlerCalls == []
      case Streaming =>
        Yielded == Present(Frames[..Cursor]) && DisposeCount == 0 && ExceptionHandlerCalls == [] && |OutboundHandlerCalls| <= 1
      case Ended =>
        DisposeCount <= 1 && |ExceptionHandlerCalls| <= 1 && |OutboundHandlerCalls| <= 1
    }

    /** A bound on the `MoveNext` calls that can still return true. */
    function Remaining(): nat
      reads this
    {
      match Phase
      case NotStarted => |Frames| + 2
      case Streaming => if Cursor <= |Frames| then |Frames| - Cursor + 1 else 0
      case Ended => 0
    }

    /** The handshake this stream performs, given the URL override of the
        request it sends. */
    function Handshake(url: Option<string>): Result<TornadoStreamRequest, Exception>
      reads Provider.Api
    {
      HttpStreamingRequestData(Provider, ChatCapability, url, Some(Post), Outcome, Auth)
    }

    constructor (request: ChatRequest, provider: EndpointProvider, handler: Option<StreamHandler>, reasoningModels: set<ChatModel>,
                 outcome: SendOutcome, auth: Option<ProviderAuthentication>, frames: seq<Option<ChatResult>>)
      ensures Valid() && Phase == NotStarted && Sent.None? && Current.None?
      ensures Request == request && Provider == provider && Handler == handler && ReasoningModels == reasoningModels
      ensures Outcome == outcome && Auth == auth && Frames == frames
    {
      Request, Provider, Handler, ReasoningModels := request, provider, handler, reasoningModels;
      Outcome, Auth, Frames := outcome, auth, frames;
      Phase, Cursor, Yielded, Current, DisposeCount := NotStarted, 0, [], None, 0;
      ExceptionHandlerCalls, OutboundHandlerCalls, Sent := [], [], None;
    }

    /** The iterator body up to the frame loop: serialize, hand-shake, and on
        failure throw (no exception hook) or call the hook once, dispose and
        end; on success call the outbound hook once when it is set. `r ==
        Ok(true)` means the frame loop is entered. */
    method Start() returns (r: Result<bool, Exception>)
      requires Valid() && Phase == NotStarted
      modifies this, Request
      ensures Valid() && Cursor == 0 && Yielded == [] && Current == old(Current)
      ensures Sent == Some(TornadoRequestContent(SerializedBody(Provider.Provider, old(Request.State()), ReasoningModels), old(Request.UrlOverride)))
      ensures Request.UrlOverride == old(Request.UrlOverride)
      ensures Opened(Handshake(old(Request.UrlOverride)), r)
    {
      var content := Request.Serialize(Provider, ReasoningModels);
      Sent := Some(content);
      r := Open(content.url);
    }

    /** What the iterator body does with the outcome of its handshake: throw
        it (no exception hook), or call the hook once, dispose and end; or call
        the outbound hook once when it is set and enter the frame loop
        (`r == Ok(true)`). */
    predicate Opened(hs: Result<TornadoStreamRequest, Exception>, r: Result<bool, Exception>)
      reads this
    {
      && Cursor == 0 && Yielded == []
      && (hs.Err? ==> r == Err(hs.error) && Phase == Ended && DisposeCount == 0
                        && ExceptionHandlerCalls == [] && OutboundHandlerCalls == [])
      && (hs.Ok? && hs.value.exception.Some? && !(Handler.Some? && Handler.value.hasHttpExceptionHandler) ==>
            r == Err(hs.value.exception.value) && Phase == Ended && DisposeCount == 0
            && ExceptionHandlerCalls == [] && OutboundHandlerCalls == [])
      && (hs.Ok? && hs.value.exception.Some? && Handler.Some? && Handler.value.hasHttpExceptionHandler ==>
            r == Ok(false) && Phase == Ended && DisposeCount == 1 && OutboundHandlerCalls == []
            && ExceptionHandlerCalls == [HttpFailedRequest(hs.value.exception.value, hs.value.callRequest, hs.value.response)])
      && (hs.Ok? && hs.value.exception.None? ==>
            r == Ok(true) && Phase == Streaming && ExceptionHandlerCalls == []
            && OutboundHandlerCalls == (if Handler.Some? && Handler.value.hasOutboundHttpRequestHandler && hs.value.callRequest.Some?
                                        then [hs.value.callRequest.value] else []))
    }

    /** The handshake and its checks, once the request has been serialized
        with this URL override. */
    method Open(url: Option<string>) returns (r: Result<bool, Exception>)
      requires Valid() && Phase == NotStarted
      modifies this`Phase, this`DisposeCount, this`ExceptionHandlerCalls, this`OutboundHandlerCalls
      ensures Valid() && Opened(Handshake(url), r)
    {
      var hs := HttpStreamingRequestData(Provider, ChatCapability, url, Some(Post), Outcome, Auth);
      if hs.Err? {
        Phase := Ended;
        return Err(hs.error);
      }
      var handshake := hs.value;
      if handshake.exception.Some? {
        if !(Handler.Some? && Handler.value.hasHttpExceptionHandler) {
          Phase := Ended;
          return Err(handshake.exception.value);
        }
        ExceptionHandlerCalls := ExceptionHandlerCalls + [HttpFailedRequest(handshake.exception.value, handshake.callRequest, handshake.response)];
        DisposeCount := DisposeCount + 1;
        Phase := Ended;
        return Ok(false);
      }
      if Handler.Some? && Handler.value.hasOutboundHttpRequestHandler && handshake.callRequest.Some? {
        OutboundHandlerCalls := OutboundHandlerCalls + [handshake.callRequest.value];
      }
      Phase := Streaming;
      r := Ok(true);
    }

    /** The null frames from the cursor on are skipped. */
    method SkipNulls()
      requires Valid() && Phase == Streaming
      modifies this`Cursor
      ensures Valid() && old(Cursor) <= Cursor
      ensures Cursor < |Frames| ==> Frames[Cursor].Some?
      ensures forall i | old(Cursor) <= i < Cursor :: Frames[i].None?
    {
      while Cursor < |Frames| && Frames[Cursor].None?
        invariant old(Cursor) <= Cursor <= |Frames|
        invariant Yielded == Present(Frames[..Cursor])
        invariant forall i | old(Cursor) <= i < Cursor :: Frames[i].None?
        decreases |Frames| - Cursor
      {
        SkipNull(Frames, Cursor);
        Cursor := Cursor + 1;
      }
    }

    /** The frame loop up to its next `yield`: null frames are skipped; the
        next non-null frame is yielded; after the last frame the stream request
        is disposed and the enumeration ends. */
    method Advance() returns (more: bool)
      requires Valid() && Phase == Streaming
      modifies this`Cursor, this`Yielded, this`Current, this`DisposeCount, this`Phase
      ensures Valid()
      ensures more ==> Cursor > old(Cursor) && Phase == Streaming && Current.Some? && Yielded == old(Yielded) + [Current.value]
                       && Frames[Cursor - 1] == Current
      ensures more ==> forall i | old(Cursor) <= i < Cursor - 1 :: Frames[i].None?
      ensures !more ==> Phase == Ended && Cursor == |Frames| && Yielded == old(Yielded) == Present(Frames) && DisposeCount == 1
                        && Current == old(Current)
      ensures !more ==> forall i | old(Cursor) <= i < |Frames| :: Frames[i].None?
    {
      SkipNulls();
      if Cursor < |Frames| {
        KeepPresent(Frames, Cursor);
        Current := Frames[Cursor];
        Yielded := Yielded + [Frames[Cursor].value];
        Cursor := Cursor + 1;
        more := true;
      } else {
        assert Frames[..Cursor] == Frames;
        DisposeCount := DisposeCount + 1;
        Phase := Ended;
        more := false;
      }
    }

    /** `MoveNextAsync`: true with `Current` set when an item is yielded,
        false once the enumeration has ended, an error when it throws. An
        ended enumeration stays ended. */
    method MoveNext() returns (r: Result<bool, Exception>)
      requires Valid()
      modifies this, Request
      ensures Valid()
      ensures old(Phase) == Ended ==> r == Ok(false) && unchanged(this) && unchanged(Request)
      ensures r == Ok(true) <==> Phase == Streaming
      ensures r == Ok(true) ==> Current.Some? && Yielded == old(Yielded) + [Current.value] && Remaining() < old(Remaining())
      ensures r != Ok(true) ==> Phase == Ended
      ensures r.Err? ==> old(Phase) == NotStarted && Yielded == [] && DisposeCount == 0 && ExceptionHandlerCalls == []
      ensures old(Phase) == Streaming ==> r.Ok? && ExceptionHandlerCalls == old(ExceptionHandlerCalls)
                                          && OutboundHandlerCalls == old(OutboundHandlerCalls)
      ensures old(Phase) == Streaming && r == Ok(false) ==> Yielded == Present(Frames) && DisposeCount == 1
    {
      if Phase == Ended {
        return Ok(false);
      }
      if Phase == NotStarted {
        r := Start();
        if r != Ok(true) {
          return;
        }
      }
      var more := Advance();
      r := Ok(more);
    }

    /** Leaving an enumeration before its end (`break` out of `await foreach`):
        the iterator has no `finally`, so the stream request is not disposed. */
    method Abandon()
      requires Valid()
      modifies this`Phase
      ensures Valid() && Phase == Ended
    {
      Phase := Ended;
    }
  }

  /** Numbering one more item gives it the next index. */
  lemma IndexedSnoc<T>(items: seq<T>, x: T)
    ensures Indexed(items + [x]) == Indexed(items) + [(|items|, x)]
  {
    assert Indexed(items + [x])[|items|] == (|items|, x);
  }

  /** Skipping a null frame leaves the yielded results as they are. */
  lemma SkipNull<T>(frames: seq<Option<T>>, k: nat)
    requires k < |frames| && frames[k].None?
    ensures Present(frames[..k + 1]) == Present(frames[..k])
  {
    assert frames[..k + 1][..k] == frames[..k];
  }

  /** A non-null frame is yielded after the earlier ones. */
  lemma KeepPresent<T>(frames: seq<Option<T>>, k: nat)
    requires k < |frames| && frames[k].Some?
    ensures Present(frames[..k + 1]) == Present(frames[..k]) + [frames[k].value]
  {
    assert frames[..k + 1][..k] == frames[..k];
  }

  /** The first half of the positional overloads' object initializer. */
  method InitializeSampling(request: ChatRequest, messages: seq<ChatMessage>, model: Option<ChatModel>,
                            temperature: Option<real>, topP: Option<real>, numOutputs: Option<int>)
    modifies request
    ensures request.State() == old(request.State()).(messages := Some(messages), model := model, temperature := temperature,
                                                     topP := topP, numChoicesPerMessage := numOutputs)
  {
    request.Messages := Some(messages);
    request.Model := model;
    request.Temperature := temperature;
    request.TopP := topP;
    request.NumChoicesPerMessage := numOutputs;
  }

  /** The second half of the positional overloads' object initializer. */
  method InitializeLimits(request: ChatRequest, stopSequences: Option<seq<string>>, maxTokens: Option<int>,
                          frequencyPenalty: Option<real>, presencePenalty: Option<real>, logitBias: Option<map<string, real>>)
    modifies request
    ensures request.State() == old(request.State()).(multipleStopSequences := stopSequences, maxTokens := maxTokens,
                                                     frequencyPenalty := frequencyPenalty, presencePenalty := presencePenalty,
                                                     logitBias := logitBias)
  {
    request.MultipleStopSequences := stopSequences;
    request.MaxTokens := maxTokens;
    request.FrequencyPenalty := frequencyPenalty;
    request.PresencePenalty := presencePenalty;
    request.LogitBias := logitBias;
  }

  /** The chat endpoint of a `TornadoApi`. */
  class ChatEndpoint {
    const Api: TornadoApi
    var DefaultChatRequestArgs: ChatRequest
    /** The calls of `Api.ChatRequestInterceptor`, in order. */
    var InterceptorCalls: seq<(ChatRequest, Option<ChatResult>)>

    constructor (api: TornadoApi)
      ensures Api == api && fresh(DefaultChatRequestArgs) && InterceptorCalls == []
      ensures DefaultChatRequestArgs.State() == DefaultState
      ensures DefaultChatRequestArgs.Model == Some(Gpt35Turbo)
    {
      Api := api;
      var defaults := new ChatRequest();
      defaults.Model := Some(Gpt35Turbo);
      DefaultChatRequestArgs := defaults;
      InterceptorCalls := [];
    }

    /** `CreateChatCompletionAsync(request)`: the provider of the request's
        model (GPT-3.5 Turbo's when it has none), the request serialized for
        it, a POST through `HttpRequest<T>`; then, when an interceptor is set,
        one call with the request and the result, even a null one. A thrown
        exception skips the interceptor. */
    method CreateChatCompletion(request: ChatRequest, reasoningModels: set<ChatModel>, outcome: SendOutcome, decode: Decoder<ChatResult>)
      returns (result: Result<Option<ChatResult>, Exception>, provider: EndpointProvider, sent: TornadoRequestContent)
      requires Api.Valid()
      modifies Api`EndpointProviders, request, this`InterceptorCalls
      ensures Api.Valid()
      ensures provider.Api == Api && ShapeOf(provider) == ConvertedShape(old(request.Model).GetOr(Gpt35Turbo).provider)
      ensures sent == TornadoRequestContent(SerializedBody(provider.Provider, old(request.State()), reasoningModels), old(request.UrlOverride))
      ensures result == HttpRequest(provider, ChatCapability, sent.url, Some(Post), outcome, Api.GetProviderAuthentication(provider.Provider), decode)
      ensures CachedOrAdded(old(Api.EndpointProviders), Api.EndpointProviders, old(request.Model).GetOr(Gpt35Turbo).provider, provider)
      ensures old(request.Model).GetOr(Gpt35Turbo).provider !in old(Api.EndpointProviders) ==> fresh(provider)
      ensures provider.Provider == Groq ==> request.State() == old(request.State()).(logitBias := None)
      ensures provider.Provider != Groq ==> request.State() == old(request.State())
      ensures result.Ok? && Api.HasChatRequestInterceptor ==> InterceptorCalls == old(InterceptorCalls) + [(request, result.value)]
      ensures !(result.Ok? && Api.HasChatRequestInterceptor) ==> InterceptorCalls == old(InterceptorCalls)
    {
      provider := Api.GetProvider(request.Model.GetOr(Gpt35Turbo).provider);
      sent := request.Serialize(provider, reasoningModels);
      result := HttpRequest(provider, ChatCapability, sent.url, Some(Post), outcome, Api.GetProviderAuthentication(provider.Provider), decode);
      if result.Err? {
        return;
      }
      if Api.HasChatRequestInterceptor {
        InterceptorCalls := InterceptorCalls + [(request, result.value)];
      }
    }

    /** `CreateChatCompletionAsyncSafe`: as the blocking call, through the
        typed safe `HttpRequestRaw<T>`; the interceptor runs only for a
        successful call, with its data. */
    method CreateChatCompletionSafe(request: ChatRequest, reasoningModels: set<ChatModel>, outcome: SendOutcome, decode: Decoder<ChatResult>)
      returns (result: Result<HttpCallResult<ChatResult>, Exception>, provider: EndpointProvider, sent: TornadoRequestContent)
      requires Api.Valid()
      modifies Api`EndpointProviders, request, this`InterceptorCalls
      ensures Api.Valid()
      ensures provider.Api == Api && ShapeOf(provider) == ConvertedShape(old(request.Model).GetOr(Gpt35Turbo).provider)
      ensures sent == TornadoRequestContent(SerializedBody(provider.Provider, old(request.State()), reasoningModels), old(request.UrlOverride))
      ensures result == HttpRequestRawTyped(provider, ChatCapability, sent.url, Some(Post), outcome, Api.GetProviderAuthentication(provider.Provider), decode)
      ensures CachedOrAdded(old(Api.EndpointProviders), Api.EndpointProviders, old(request.Model).GetOr(Gpt35Turbo).provider, provider)
      ensures old(request.Model).GetOr(Gpt35Turbo).provider !in old(Api.EndpointProviders) ==> fresh(provider)
      ensures provider.Provider == Groq ==> request.State() == old(request.State()).(logitBias := None)
      ensures provider.Provider != Groq ==> request.State() == old(request.State())
      ensures result.Ok? && result.value.ok && Api.HasChatRequestInterceptor ==>
                InterceptorCalls == old(InterceptorCalls) + [(request, result.value.data)]
      ensures !(result.Ok? && result.value.ok && Api.HasChatRequestInterceptor) ==> InterceptorCalls == old(InterceptorCalls)
    {
      provider := Api.GetProvider(request.Model.GetOr(Gpt35Turbo).provider);
      sent := request.Serialize(provider, reasoningModels);
      result := HttpRequestRawTyped(provider, ChatCapability, sent.url, Some(Post), outcome, Api.GetProviderAuthentication(provider.Provider), decode);
      if result.Ok? && result.value.ok && Api.HasChatRequestInterceptor {
        InterceptorCalls := InterceptorCalls + [(request, result.value.data)];
      }
    }

    /** The request the positional overloads build from the defaults. */
    method MergedRequest(messages: seq<ChatMessage>, model: Option<ChatModel>, temperature: Option<real>, topP: Option<real>,
                         numOutputs: Option<int>, maxTokens: Option<int>, frequencyPenalty: Option<real>,
                         presencePenalty: Option<real>, logitBias: Option<map<string, real>>, stopSequences: Option<seq<string>>)
      returns (request: ChatRequest)
      ensures fresh(request)
      ensures request.State() == MergedState(DefaultChatRequestArgs.State(), messages, model, temperature, topP, numOutputs,
                                             maxTokens, frequencyPenalty, presencePenalty, logitBias, stopSequences)
    {
      var defaults := DefaultChatRequestArgs;
      request := new ChatRequest.BasedOn(defaults);
      InitializeSampling(request, messages, model.OrElse(defaults.Model), temperature.OrElse(defaults.Temperature),
                         topP.OrElse(defaults.TopP), numOutputs.OrElse(defaults.NumChoicesPerMessage));
      InitializeLimits(request, stopSequences.OrElse(defaults.MultipleStopSequences), maxTokens.OrElse(defaults.MaxTokens),
                       frequencyPenalty.OrElse(defaults.FrequencyPenalty), presencePenalty.OrElse(defaults.PresencePenalty),
                       logitBias.OrElse(defaults.LogitBias));
    }

    /** The positional `CreateChatCompletionAsync`: the merged request, sent
        as by the request overload. */
    method CreateChatCompletionWith(reasoningModels: set<ChatModel>, outcome: SendOutcome, decode: Decoder<ChatResult>,
                                    messages: seq<ChatMessage>, model: Option<ChatModel> := None, temperature: Option<real> := None,
                                    topP: Option<real> := None, numOutputs: Option<int> := None, maxTokens: Option<int> := None,
                                    frequencyPenalty: Option<real> := None, presencePenalty: Option<real> := None,
                                    logitBias: Option<map<string, real>> := None, stopSequences: Option<seq<string>> := Some([]))
      returns (result: Result<Option<ChatResult>, Exception>, provider: EndpointProvider, sent: TornadoRequestContent)
      requires Api.Valid()
      modifies Api`EndpointProviders, this`InterceptorCalls
      ensures Api.Valid()
      ensures var merged := MergedState(old(DefaultChatRequestArgs.State()), messages, model, temperature, topP, numOutputs,
                                        maxTokens, frequencyPenalty, presencePenalty, logitBias, stopSequences);
              && ShapeOf(provider) == ConvertedShape(merged.model.GetOr(Gpt35Turbo).provider)
              && sent == TornadoRequestContent(SerializedBody(provider.Provider, merged, reasoningModels), None)
              && CachedOrAdded(old(Api.EndpointProviders), Api.EndpointProviders, merged.model.GetOr(Gpt35Turbo).provider, provider)
              && (merged.model.GetOr(Gpt35Turbo).provider !in old(Api.EndpointProviders) ==> fresh(provider))
      ensures result == HttpRequest(provider, ChatCapability, None, Some(Post), outcome, Api.GetProviderAuthentication(provider.Provider), decode)
      ensures result.Ok? && Api.HasChatRequestInterceptor ==>
                && |InterceptorCalls| == |old(InterceptorCalls)| + 1
                && InterceptorCalls[..|old(InterceptorCalls)|] == old(InterceptorCalls)
                && fresh(InterceptorCalls[|old(InterceptorCalls)|].0)
                && InterceptorCalls[|old(InterceptorCalls)|].1 == result.value
      ensures !(result.Ok? && Api.HasChatRequestInterceptor) ==> InterceptorCalls == old(InterceptorCalls)
    {
      var request := MergedRequest(messages, model, temperature, topP, numOutputs, maxTokens, frequencyPenalty,
                                   presencePenalty, logitBias, stopSequences);
      result, provider, sent := CreateChatCompletion(request, reasoningModels, outcome, decode);
    }

    /** The `params ChatMessage[]` overload: a copy of the defaults with these
        messages. */
    method CreateChatCompletionFromMessages(reasoningModels: set<ChatModel>, outcome: SendOutcome, decode: Decoder<ChatResult>,
                                            messages: seq<ChatMessage>)
      returns (result: Result<Option<ChatResult>, Exception>, provider: EndpointProvider, sent: TornadoRequestContent)
      requires Api.Valid()
      modifies Api`EndpointProviders, this`InterceptorCalls
      ensures Api.Valid()
      ensures var built := CopiedState(old(DefaultChatRequestArgs.State())).(messages := Some(messages));
              && ShapeOf(provider) == ConvertedShape(built.model.GetOr(Gpt35Turbo).provider)
              && sent == TornadoRequestContent(SerializedBody(provider.Provider, built, reasoningModels), None)
              && CachedOrAdded(old(Api.EndpointProviders), Api.EndpointProviders, built.model.GetOr(Gpt35Turbo).provider, provider)
              && (built.model.GetOr(Gpt35Turbo).provider !in old(Api.EndpointProviders) ==> fresh(provider))
      ensures result == HttpRequest(provider, ChatCapability, None, Some(Post), outcome, Api.GetProviderAuthentication(provider.Provider), decode)
      ensures result.Ok? && Api.HasChatRequestInterceptor ==>
                && |InterceptorCalls| == |old(InterceptorCalls)| + 1
                && InterceptorCalls[..|old(InterceptorCalls)|] == old(InterceptorCalls)
                && fresh(InterceptorCalls[|old(InterceptorCalls)|].0)
                && InterceptorCalls[|old(InterceptorCalls)|].1 == result.value
      ensures !(result.Ok? && Api.HasChatRequestInterceptor) ==> InterceptorCalls == old(InterceptorCalls)
    {
      var request := new ChatRequest.BasedOn(DefaultChatRequestArgs);
      request.Messages := Some(messages);
      result, provider, sent := CreateChatCompletion(request, reasoningModels, outcome, decode);
    }

    /** The `params string[]` overload: every string a user message. */
    method CreateChatCompletionFromText(reasoningModels: set<ChatModel>, outcome: SendOutcome, decode: Decoder<ChatResult>,
                                        userMessages: seq<string>)
      returns (result: Result<Option<ChatResult>, Exception>, provider: EndpointProvider, sent: TornadoRequestContent)
      requires Api.Valid()
      modifies Api`EndpointProviders, this`InterceptorCalls
      ensures Api.Valid()
      ensures var built := CopiedState(old(DefaultChatRequestArgs.State())).(messages := Some(UserMessages(userMessages)));
              && ShapeOf(provider) == ConvertedShape(built.model.GetOr(Gpt35Turbo).provider)
              && sent == TornadoRequestContent(SerializedBody(provider.Provider, built, reasoningModels), None)
              && CachedOrAdded(old(Api.EndpointProviders), Api.EndpointProviders, built.model.GetOr(Gpt35Turbo).provider, provider)
              && (built.model.GetOr(Gpt35Turbo).provider !in old(Api.EndpointProviders) ==> fresh(provider))
      ensures result == HttpRequest(provider, ChatCapability, None, Some(Post), outcome, Api.GetProviderAuthentication(provider.Provider), decode)
      ensures result.Ok? && Api.HasChatRequestInterceptor ==>
                && |InterceptorCalls| == |old(InterceptorCalls)| + 1
                && InterceptorCalls[..|old(InterceptorCalls)|] == old(InterceptorCalls)
                && fresh(InterceptorCalls[|old(InterceptorCalls)|].0)
                && InterceptorCalls[|old(InterceptorCalls)|].1 == result.value
      ensures !(result.Ok? && Api.HasChatRequestInterceptor) ==> InterceptorCalls == old(InterceptorCalls)
    {
      result, provider, sent := CreateChatCompletionFromMessages(reasoningModels, outcome, decode, UserMessages(userMessages));
    }

    /** `StreamChatEnumerableAsync(request, handler)`: a copy of the request
        with `Stream` set, sent to the provider of its model; the caller's
        request is not changed. */
    method StreamChatEnumerable(request: ChatRequest, handler: Option<StreamHandler>, reasoningModels: set<ChatModel>,
                                outcome: SendOutcome, frames: seq<Option<ChatResult>>)
      returns (stream: ChatStream)
      requires Api.Valid()
      modifies Api`EndpointProviders
      ensures Api.Valid()
      ensures fresh(stream) && fresh(stream.Request) && stream.Valid() && stream.Phase == NotStarted
      ensures stream.Request.State() == CopiedState(request.State()).(stream := true)
      ensures stream.Provider.Api == Api && ShapeOf(stream.Provider) == ConvertedShape(request.Model.GetOr(Gpt35Turbo).provider)
      ensures stream.Auth == Api.GetProviderAuthentication(stream.Provider.Provider)
      ensures stream.Handler == handler && stream.Frames == frames && stream.Outcome == outcome
      ensures stream.ReasoningModels == reasoningModels
      ensures CachedOrAdded(old(Api.EndpointProviders), Api.EndpointProviders, request.Model.GetOr(Gpt35Turbo).provider, stream.Provider)
      ensures request.Model.GetOr(Gpt35Turbo).provider !in old(Api.EndpointProviders) ==> fresh(stream.Provider)
    {
      var copy := new ChatRequest.BasedOn(request);
      copy.Stream := true;
      var provider := Api.GetProvider(copy.Model.GetOr(Gpt35Turbo).provider);
      stream := new ChatStream(copy, provider, handler, reasoningModels, outcome, Api.GetProviderAuthentication(provider.Provider), frames);
    }

    /** The positional `StreamChatEnumerableAsync`: the merged request,
        streamed with no handler. */
    method StreamChatEnumerableWith(reasoningModels: set<ChatModel>, outcome: SendOutcome, frames: seq<Option<ChatResult>>,
                                    messages: seq<ChatMessage>, model: Option<ChatModel> := None, temperature: Option<real> := None,
                                    topP: Option<real> := None, numOutputs: Option<int> := None, maxTokens: Option<int> := None,
                                    frequencyPenalty: Option<real> := None, presencePenalty: Option<real> := None,
                                    logitBias: Option<map<string, real>> := None, stopSequences: Option<seq<string>> := Some([]))
      returns (stream: ChatStream)
      requires Api.Valid()
      modifies Api`EndpointProviders
      ensures Api.Valid()
      ensures fresh(stream) && stream.Valid() && stream.Phase == NotStarted && stream.Handler.None?
      ensures stream.Request.State() == CopiedState(MergedState(old(DefaultChatRequestArgs.State()), messages, model, temperature, topP,
                                                                numOutputs, maxTokens, frequencyPenalty, presencePenalty, logitBias,
                                                                stopSequences)).(stream := true)
      ensures var merged := MergedState(old(DefaultChatRequestArgs.State()), messages, model, temperature, topP, numOutputs,
                                        maxTokens, frequencyPenalty, presencePenalty, logitBias, stopSequences);
              && CachedOrAdded(old(Api.EndpointProviders), Api.EndpointProviders, merged.model.GetOr(Gpt35Turbo).provider, stream.Provider)
              && (merged.model.GetOr(Gpt35Turbo).provider !in old(Api.EndpointProviders) ==> fresh(stream.Provider))
    {
      var request := MergedRequest(messages, model, temperature, topP, numOutputs, maxTokens, frequencyPenalty,
                                   presencePenalty, logitBias, stopSequences);
      stream := StreamChatEnumerable(request, None, reasoningModels, outcome, frames);
    }
  }

  /** `StreamCompletionAsync`'s loop: every result the stream yields is handed
      to the callback with the next index, 0, 1, 2, ...; an exception of the
      stream ends the loop and propagates. Run to the end, the stream yields
      the non-null frames in order after a successful handshake, and nothing
      otherwise. */
  method StreamCompletion(stream: ChatStream) returns (handed: seq<(int, ChatResult)>, thrown: Option<Exception>)
    requires stream.Valid() && stream.Phase == NotStarted
    modifies stream, stream.Request
    ensures stream.Valid() && stream.Phase == Ended
    ensures handed == Indexed(stream.Yielded)
    ensures var hs := stream.Handshake(old(stream.Request.UrlOverride));
            && (hs.Err? ==> thrown == Some(hs.error) && handed == [] && stream.DisposeCount == 0)
            && (hs.Ok? && hs.value.exception.Some? ==> handed == [] && stream.OutboundHandlerCalls == [])
            && (hs.Ok? && hs.value.exception.Some? && !(stream.Handler.Some? && stream.Handler.value.hasHttpExceptionHandler) ==>
                  thrown == hs.value.exception && stream.DisposeCount == 0 && stream.ExceptionHandlerCalls == [])
            && (hs.Ok? && hs.value.exception.Some? && stream.Handler.Some? && stream.Handler.value.hasHttpExceptionHandler ==>
                  thrown.None? && stream.DisposeCount == 1
                  && stream.ExceptionHandlerCalls == [HttpFailedRequest(hs.value.exception.value, hs.value.callRequest, hs.value.response)])
            && (hs.Ok? && hs.value.exception.None? ==>
                  thrown.None? && stream.Yielded == Present(stream.Frames) && stream.DisposeCount == 1
                  && stream.ExceptionHandlerCalls == []
                  && stream.OutboundHandlerCalls == (if stream.Handler.Some? && stream.Handler.value.hasOutboundHttpRequestHandler
                                                     then [hs.value.callRequest.value] else []))
  {
    var first := stream.Start();
    handed, thrown := [], None;
    if first.Err? {
      thrown := Some(first.error);
      return;
    }
    if first == Ok(false) {
      return;
    }
    handed := HandFrames(stream);
  }

  /** The frame loop of `StreamCompletionAsync`, from a successful handshake
      to the natural end: each yielded result goes to the callback with
      `index++`. */
  method HandFrames(stream: ChatStream) returns (handed: seq<(int, ChatResult)>)
    requires stream.Valid() && stream.Phase == Streaming && stream.Yielded == []
    modifies stream`Cursor, stream`Yielded, stream`Current, stream`DisposeCount, stream`Phase
    ensures stream.Valid() && stream.Phase == Ended
    ensures handed == Indexed(stream.Yielded)
    ensures stream.Yielded == Present(stream.Frames) && stream.DisposeCount == 1
  {
    handed := [];
    var index := 0;
    var more := true;
    while more
      invariant stream.Valid()
      invariant more <==> stream.Phase == Streaming
      invariant index == |stream.Yielded|
      invariant handed == Indexed(stream.Yielded)
      invariant !more ==> stream.Yielded == Present(stream.Frames) && stream.DisposeCount == 1
      decreases stream.Remaining()
    {
      ghost var before := stream.Yielded;
      more := stream.Advance();
      if more {
        IndexedSnoc(before, stream.Current.value);
        handed := handed + [(index, stream.Current.value)];
        index := index + 1;
      }
    }
  }

  /** Leaving a stream after its first result skips the disposal that the
      natural end performs. */
  method BreakAfterFirst(stream: ChatStream) returns (first: Option<ChatResult>)
    requires stream.Valid() && stream.Phase == NotStarted
    modifies stream, stream.Request
    ensures first.Some? ==> stream.DisposeCount == 0 && stream.Yielded == [first.value]
    ensures stream.Phase == Ended
  {
    var r := stream.MoveNext();
    first := None;
    if r == Ok(true) {
      first := stream.Current;
      stream.Abandon();
    }
  }
}
