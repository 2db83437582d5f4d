/** The chat request (`ChatRequest`): its fields and defaults, the copy
    constructor, the coupled stop-sequence accessors, the compiled `stop`
    value, and the per-vendor serializer table. */
module ChatRequests {
  import opened Common
  import opened Providers
  import opened Registry
  import opened Messages

  /** `ChatRequestMaxTokensSerializers`; `OtherSerializer` stands for the
      members the serializer table sends to its default branch. */
  datatype MaxTokensSerializers = Auto | MaxCompletionTokens | OtherSerializer(code: int)

  /** A `CancellationToken`; `NoToken` is `CancellationToken.None`. */
  datatype CancellationToken = NoToken | Token(id: nat)

  /** Every field of a request, as one value. Floating-point fields are
      `real`; the tool, format, option, adapter and extension objects are
      opaque payloads. `streamOptions` is `StreamOptionsInternal` and
      `streamOptionsSerialized` is `StreamOptionsInternalSerialized`. */
  datatype RequestState = RequestState(
    model: Option<ChatModel>,
    messages: Option<seq<ChatMessage>>,
    temperature: Option<real>,
    topP: Option<real>,
    numChoicesPerMessage: Option<int>,
    seed: Option<int>,
    responseFormat: Option<Blob>,
    stream: bool,
    streamOptions: Option<Blob>,
    streamOptionsSerialized: Option<Blob>,
    multipleStopSequences: Option<seq<string>>,
    maxTokens: Option<int>,
    maxTokensSerializer: MaxTokensSerializers,
    frequencyPenalty: Option<real>,
    presencePenalty: Option<real>,
    logitBias: Option<map<string, real>>,
    user: Option<string>,
    tools: Option<seq<Blob>>,
    parallelToolCalls: Option<bool>,
    toolChoice: Option<Blob>,
    outboundFunctionsContent: Option<Blob>,
    adapter: Option<Blob>,
    vendorExtensions: Option<Blob>,
    trimResponseStart: bool,
    cancellationToken: CancellationToken,
    urlOverride: Option<string>)

  /** A new request: GPT-3.5 Turbo, not streaming, `Auto` token-limit key,
      response trimming on, no cancellation token, every other field null. */
  const DefaultState: RequestState := RequestState(
    Some(Gpt35Turbo), None, None, None, None, None, None,
    false, None, None, None, None, Auto, None, None, None, None, None, None, None, None, None, None,
    true, NoToken, None)

  /** What the copy constructor produces from a base request: the 21 copied
      fields are the base's, the stream options are the base's on both of
      their backing fields, and `Stream`, `MaxTokensSerializer`,
      `CancellationToken` and `UrlOverride` keep their defaults. */
  function CopiedState(b: RequestState): (r: RequestState)
    ensures r.model == b.model && r.messages == b.messages && r.temperature == b.temperature && r.topP == b.topP
    ensures r.numChoicesPerMessage == b.numChoicesPerMessage && r.multipleStopSequences == b.multipleStopSequences
    ensures r.maxTokens == b.maxTokens && r.frequencyPenalty == b.frequencyPenalty && r.presencePenalty == b.presencePenalty
    ensures r.logitBias == b.logitBias && r.tools == b.tools && r.toolChoice == b.toolChoice
    ensures r.outboundFunctionsContent == b.outboundFunctionsContent && r.adapter == b.adapter
    ensures r.vendorExtensions == b.vendorExtensions && r.trimResponseStart == b.trimResponseStart
    ensures r.parallelToolCalls == b.parallelToolCalls && r.seed == b.seed && r.user == b.user
    ensures r.responseFormat == b.responseFormat
    ensures r.streamOptions == b.streamOptions && r.streamOptionsSerialized == b.streamOptions
    ensures !r.stream && r.maxTokensSerializer == Auto && r.cancellationToken == NoToken && r.urlOverride.None?
  {
    b.(stream := false, maxTokensSerializer := Auto, cancellationToken := NoToken, urlOverride := None,
       streamOptionsSerialized := b.streamOptions)
  }

  /** The `StopSequence` getter: the first stop sequence, or null when there
      is no list or it is empty. */
  function FirstStop(stops: Option<seq<string>>): (r: Option<string>)
    ensures r.Some? <==> stops.Some? && |stops.value| > 0
    ensures r.Some? ==> r.value == stops.value[0]
  {
    if stops.Some? && |stops.value| > 0 then Some(stops.value[0]) else None
  }

  /** The JSON `stop` value: absent, one string, or an array of strings. */
  datatype StopValue = NoStop | SingleStop(stop: string) | ManyStops(stops: seq<string>)

  /** The stop sequences a `stop` value sends. */
  function StopsOf(v: StopValue): seq<string> {
    match v
    case NoStop => []
    case SingleStop(s) => [s]
    case ManyStops(ss) => ss
  }

  /** `CompiledStop`: a single string for exactly one sequence, the whole
      array for two or more, nothing for a null or empty list. Nothing but the
      difference between a null and an empty list is lost. */
  function CompiledStop(stops: Option<seq<string>>): (r: StopValue)
    ensures r.NoStop? <==> stops.None? || |stops.value| == 0
    ensures r.SingleStop? <==> stops.Some? && |stops.value| == 1
    ensures r.ManyStops? <==> stops.Some? && |stops.value| >= 2
    ensures StopsOf(r) == stops.GetOr([])
  {
    match stops
    case None => NoStop
    case Some(ss) =>
      if |ss| == 1 then SingleStop(FirstStop(stops).value)
      else if |ss| > 0 then ManyStops(ss)
      else NoStop
  }

  /** The properties a request sends, as the serializer with null values
      ignored sees them: the `[JsonProperty]` fields, with `messages` written
      by the message converter and `stop` compiled. */
  datatype WireRequest = WireRequest(
    model: Option<ChatModel>,
    messages: Option<seq<Token>>,
    temperature: Option<real>,
    topP: Option<real>,
    n: Option<int>,
    seed: Option<int>,
    responseFormat: Option<Blob>,
    stream: bool,
    streamOptions: Option<Blob>,
    stop: StopValue,
    maxTokens: Option<int>,
    frequencyPenalty: Option<real>,
    presencePenalty: Option<real>,
    logitBias: Option<map<string, real>>,
    user: Option<string>,
    tools: Option<seq<Blob>>,
    parallelToolCalls: Option<bool>,
    toolChoice: Option<Blob>,
    adapter: Option<Blob>)

  /** The `[JsonProperty]` projection of a request: the properties marked
      for serialization, in declaration order, with `messages` written by its
      converter, `stop` computed from the stop sequences and `stream_options`
      taken from its serialized form; the `[JsonIgnore]` properties are
      dropped. */
  function WireOf(s: RequestState): (w: WireRequest)
    ensures w.messages.Some? <==> s.messages.Some?
    ensures w.messages.Some? ==> w.messages.value == MessagesTokens(s.messages)
    ensures w.stop == CompiledStop(s.multipleStopSequences)
    ensures w.streamOptions == s.streamOptionsSerialized
  {
    WireRequest(
      s.model,
      if s.messages.Some? then Some(MessagesTokens(s.messages)) else None,
      s.temperature, s.topP, s.numChoicesPerMessage, s.seed, s.responseFormat, s.stream,
      s.streamOptionsSerialized, CompiledStop(s.multipleStopSequences), s.maxTokens,
      s.frequencyPenalty, s.presencePenalty, s.logitBias, s.user, s.tools, s.parallelToolCalls,
      s.toolChoice, s.adapter)
  }

  /** The `[JsonIgnore]` fields never reach the wire: two requests that agree
      on everything else serialize alike. */
  lemma IgnoredFieldsNotSent(s: RequestState, t: RequestState)
    requires t == s.(streamOptions := t.streamOptions, maxTokensSerializer := t.maxTokensSerializer,
                     outboundFunctionsContent := t.outboundFunctionsContent, vendorExtensions := t.vendorExtensions,
                     trimResponseStart := t.trimResponseStart, cancellationToken := t.cancellationToken,
                     urlOverride := t.urlOverride)
    ensures WireOf(t) == WireOf(s)
  {
  }

  /** A request body: nothing (no serializer registered for the vendor), the
      request itself serialized, with `max_tokens` renamed to
      `max_completion_tokens` when `renameMaxTokens` holds, or a vendor's own
      request object built from the request (its serializer is not part of
      this model). */
  datatype RequestBody =
    | EmptyBody
    | RequestJson(wire: WireRequest, renameMaxTokens: bool)
    | VendorJson(vendor: LLmProviders, request: RequestState)

  /** The JSON key the token limit is sent under. */
  function MaxTokensKey(body: RequestBody): Option<string> {
    if body.RequestJson? then Some(if body.renameMaxTokens then "max_completion_tokens" else "max_tokens") else None
  }

  /** `TornadoRequestContent`: the body and the URL override. */
  datatype TornadoRequestContent = TornadoRequestContent(body: RequestBody, url: Option<string>)

  /** The serializer table (`SerializeMap`) applied to a request, where
      `reasoningModels` is the OpenAI reasoning-model list. OpenAI sends the
      request, renaming the token limit when asked to or, under `Auto`, for a
      reasoning model; Groq sends it without logit bias; Anthropic, Cohere and
      Google send their own request objects; any other vendor has no entry and
      gets an empty body. */
  function SerializedBody(provider: LLmProviders, s: RequestState, reasoningModels: set<ChatModel>): (r: RequestBody)
    ensures r.EmptyBody? <==> provider !in NamedProviders
    ensures provider == OpenAi ==> r.RequestJson? && r.wire == WireOf(s)
    ensures provider == OpenAi ==>
              (r.renameMaxTokens <==> s.maxTokensSerializer == MaxCompletionTokens
                                      || (s.maxTokensSerializer == Auto && s.model.Some? && s.model.value in reasoningModels))
    ensures provider == Groq ==> r == RequestJson(WireOf(s.(logitBias := None)), false)
    ensures provider in {Anthropic, Cohere, Google} ==> r == VendorJson(provider, s)
    ensures r.RequestJson? && r.renameMaxTokens ==> provider == OpenAi
  {
    match provider
    case OpenAi =>
      match s.maxTokensSerializer {
        case Auto =>
          if s.model.Some? && s.model.value in reasoningModels then RequestJson(WireOf(s), true)
          else RequestJson(WireOf(s), false)
        case MaxCompletionTokens => RequestJson(WireOf(s), true)
        case OtherSerializer(_) => RequestJson(WireOf(s), false)
      }
    case Anthropic => VendorJson(Anthropic, s)
    case Cohere => VendorJson(Cohere, s)
    case Google => VendorJson(Google, s)
    case Groq => RequestJson(WireOf(s.(logitBias := None)), false)
    case OtherProvider(_) => EmptyBody
  }

  /** Only an OpenAI request can carry `max_completion_tokens`; an explicit
      `MaxCompletionTokens` choice always does. */
  lemma MaxCompletionTokensOnlyForOpenAi(provider: LLmProviders, s: RequestState, reasoningModels: set<ChatModel>)
    ensures MaxTokensKey(SerializedBody(provider, s, reasoningModels)) == Some("max_completion_tokens")
            <==> provider == OpenAi && (s.maxTokensSerializer == MaxCompletionTokens
                                        || (s.maxTokensSerializer == Auto && s.model.Some? && s.model.value in reasoningModels))
  {
    assert "max_tokens" != "max_completion_tokens" by {
      assert "max_tokens"[4] != "max_completion_tokens"[4];
    }
  }

  class ChatRequest {
    var Model: Option<ChatModel>
    var Messages: Option<seq<ChatMessage>>
    var Temperature: Option<real>
    var TopP: Option<real>
    var NumChoicesPerMessage: Option<int>
    var Seed: Option<int>
    var ResponseFormat: Option<Blob>
    var Stream: bool
    var StreamOptionsInternal: Option<Blob>
    var StreamOptionsInternalSerialized: Option<Blob>
    var MultipleStopSequences: Option<seq<string>>
    var MaxTokens: Option<int>
    var MaxTokensSerializer: MaxTokensSerializers
    var FrequencyPenalty: Option<real>
    var PresencePenalty: Option<real>
    var LogitBias: Option<map<string, real>>
    var User: Option<string>
    var Tools: Option<seq<Blob>>
    var ParallelToolCalls: Option<bool>
    var ToolChoice: Option<Blob>
    var OutboundFunctionsContent: Option<Blob>
    var Adapter: Option<Blob>
    var VendorExtensions: Option<Blob>
    var TrimResponseStart: bool
    var CancellationToken: CancellationToken
    var UrlOverride: Option<string>

    function State(): RequestState
      reads this
    {
      RequestState(Model, Messages, Temperature, TopP, NumChoicesPerMessage, Seed, ResponseFormat,
                   Stream, StreamOptionsInternal, StreamOptionsInternalSerialized, MultipleStopSequences,
                   MaxTokens, MaxTokensSerializer, FrequencyPenalty, PresencePenalty, LogitBias, User, Tools,
                   ParallelToolCalls, ToolChoice, OutboundFunctionsContent, Adapter, VendorExtensions,
                   TrimResponseStart, CancellationToken, UrlOverride)
    }

    /** A new, empty request: the field initializers. */
    constructor ()
      ensures State() == DefaultState
    {
      Model := Some(Gpt35Turbo);
      Messages := None;
      Temperature := None;
      TopP := None;
      NumChoicesPerMessage := None;
      Seed := None;
      ResponseFormat := None;
      Stream := false;
      StreamOptionsInternal := None;
      StreamOptionsInternalSerialized := None;
      MultipleStopSequences := None;
      MaxTokens := None;
      MaxTokensSerializer := Auto;
      FrequencyPenalty := None;
      PresencePenalty := None;
      LogitBias := None;
      User := None;
      Tools := None;
      ParallelToolCalls := None;
      ToolChoice := None;
      OutboundFunctionsContent := None;
      Adapter := None;
      VendorExtensions := None;
      TrimResponseStart := true;
      CancellationToken := NoToken;
      UrlOverride := None;
    }

    /** The copy constructor: the field initializers, then, unless the base is
        null, the listed fields assigned one by one from the base. The
        `StopSequence` and `StreamOptions` setters it goes through are written
        out inline, since no method can be called before the object exists. */
    constructor BasedOn(basedOn: ChatRequest?)
      ensures basedOn == null ==> State() == DefaultState
      ensures basedOn != null ==> State() == CopiedState(basedOn.State())
    {
      Model := Some(Gpt35Turbo);
      Messages := None;
      Temperature := None;
      TopP := None;
      NumChoicesPerMessage := None;
      Seed := None;
      ResponseFormat := None;
      Stream := false;
      StreamOptionsInternal := None;
      StreamOptionsInternalSerialized := None;
      MultipleStopSequences := None;
      MaxTokens := None;
      MaxTokensSerializer := Auto;
      FrequencyPenalty := None;
      PresencePenalty := None;
      LogitBias := None;
      User := None;
      Tools := None;
      ParallelToolCalls := None;
      ToolChoice := None;
      OutboundFunctionsContent := None;
      Adapter := None;
      VendorExtensions := None;
      TrimResponseStart := true;
      CancellationToken := NoToken;
      UrlOverride := None;
      if basedOn != null {
        Model := basedOn.Model;
        Messages := basedOn.Messages;
        Temperature := basedOn.Temperature;
        TopP := basedOn.TopP;
        NumChoicesPerMessage := basedOn.NumChoicesPerMessage;
        var stop := basedOn.StopSequence();
        if stop.Some? {
          MultipleStopSequences := Some([stop.value]);
        }
        MultipleStopSequences := basedOn.MultipleStopSequences;
        MaxTokens := basedOn.MaxTokens;
        FrequencyPenalty := basedOn.FrequencyPenalty;
        PresencePenalty := basedOn.PresencePenalty;
        LogitBias := basedOn.LogitBias;
        Tools := basedOn.Tools;
        ToolChoice := basedOn.ToolChoice;
        OutboundFunctionsContent := basedOn.OutboundFunctionsContent;
        Adapter := basedOn.Adapter;
        VendorExtensions := basedOn.VendorExtensions;
        StreamOptionsInternal := basedOn.StreamOptions();
        StreamOptionsInternalSerialized := basedOn.StreamOptions();
        TrimResponseStart := basedOn.TrimResponseStart;
        ParallelToolCalls := basedOn.ParallelToolCalls;
        Seed := basedOn.Seed;
        User := basedOn.User;
        ResponseFormat := basedOn.ResponseFormat;
      }
    }

    function StopSequence(): Option<string>
      reads this
    {
      FirstStop(MultipleStopSequences)
    }

    /** The `StopSequence` setter: a non-null value replaces the list by a
        one-element list; null leaves the request as it is. */
    method SetStopSequence(value: Option<string>)
      modifies this
      ensures value.Some? ==> State() == old(State()).(multipleStopSequences := Some([value.value]))
      ensures value.None? ==> State() == old(State())
      ensures value.Some? ==> StopSequence() == value && CompiledStop(MultipleStopSequences) == SingleStop(value.value)
    {
      if value.Some? {
        MultipleStopSequences := Some([value.value]);
      }
    }

    function StreamOptions(): Option<Blob>
      reads this
    {
      StreamOptionsInternal
    }

    /** The `StreamOptions` setter writes both backing fields. */
    method SetStreamOptions(value: Option<Blob>)
      modifies this
      ensures State() == old(State()).(streamOptions := value, streamOptionsSerialized := value)
    {
      StreamOptionsInternal := value;
      StreamOptionsInternalSerialized := StreamOptionsInternal;
    }

    /** `Serialize`: the vendor's entry of the serializer table applied to this
        request, with the URL override; the Groq entry first clears this
        request's own logit bias, which stays cleared afterwards. */
    method Serialize(provider: EndpointProvider, reasoningModels: set<ChatModel>) returns (content: TornadoRequestContent)
      modifies this
      ensures content == TornadoRequestContent(SerializedBody(provider.Provider, old(State()), reasoningModels), old(UrlOverride))
      ensures provider.Provider == Groq ==> State() == old(State()).(logitBias := None)
      ensures provider.Provider != Groq ==> State() == old(State())
    {
      var body;
      match provider.Provider {
        case OpenAi =>
          match MaxTokensSerializer {
            case Auto =>
              if Model.Some? && Model.value in reasoningModels {
                body := RequestJson(WireOf(State()), true);
              } else {
                body := RequestJson(WireOf(State()), false);
              }
            case MaxCompletionTokens =>
              body := RequestJson(WireOf(State()), true);
            case OtherSerializer(_) =>
              body := RequestJson(WireOf(State()), false);
          }
        case Anthropic => body := VendorJson(Anthropic, State());
        case Cohere => body := VendorJson(Cohere, State());
        case Google => body := VendorJson(Google, State());
        case Groq =>
          LogitBias := None;
          body := RequestJson(WireOf(State()), false);
        case OtherProvider(_) => body := EmptyBody;
      }
      content := TornadoRequestContent(body, UrlOverride);
    }
  }
}
