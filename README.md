# LlmTornado chat path — a Dafny model

This project models the core of LlmTornado, a .NET client for the chat APIs
of several LLM vendors (OpenAI, Anthropic, Cohere, Google, Groq and
compatible servers), and one of the repository's maintenance scripts. The
model covers:

- **Provider registry** (`registry.dfy`, `providers.dfy`):
  - `TornadoApi`, with its credentials table, filled first-wins.
  - Its provider cache, filled check-then-insert.
  - The converter's total switch from vendor to endpoint-provider class.
  - The Groq URL resolver, built on .NET composite formatting of the URL template.
- **Chat request** (`chat_request.dfy`):
  - Its defaults and copy constructor.
  - The coupled `StopSequence` / `MultipleStopSequences` accessors and the compiled `stop` value.
  - The `StreamOptions` setter.
  - The per-vendor serializer table: the empty body for unregistered vendors, the OpenAI `max_tokens` / `max_completion_tokens` choice, and Groq clearing the caller's `LogitBias` in place.
- **Messages writer** (`messages.dfy`): the hand-written JSON converter for
  the `messages` property. The JSON writer is modelled by the token sequence
  it has been given. A reader of those tokens is proved to recover, for every
  message list, exactly what each message contributes to the wire format.
- **Transport** (`transport.dfy`, the request layer of `EndpointBase`):
  - URL and verb defaulting.
  - Redaction of the API key and organization from error bodies.
  - Classification by status: success is the 2xx class (section 15.3 of RFC 9110); 401 (section 15.5.2) and exactly 500 (section 15.6.1) are singled out.
  - The catch block that re-wraps every exception.
  - The never-throwing and typed variants.
  - The streaming filter.
  - The process-wide user agent, timeout and per-vendor client table.
- **Chat endpoint** (`chat.dfy`):
  - The blocking and safe completions with their interceptor rules.
  - The positional overloads merged against `DefaultChatRequestArgs`.
  - The streaming state machine of `StreamChatReal`, as a class stepped by `MoveNext`: handshake failure with and without a handler, the outbound-request hook, null frames skipped, disposal only at the natural end.
  - `StreamCompletionAsync`'s index numbering.
- **Assistants** (`assistants.dfy`): both constructors of `CreateAssistantRequest`.
- **Moderation** (`moderation.dfy`): `FlaggedCategories` (filter, stable descending
  sort by score, key lookup), `MainContentFlag`, `HighestFlagScore` and
  `ModerationResult.ToString`, with their failure cases.
- **Namespace refactor** (`namespace_refactor.dfy`): the line rewrite of
  `convert_namespace` in `PythonRefactoringScripts/NamespaceRefactor.py`,
  which turns a file-scoped C# namespace into a block namespace. The regular
  expression is modelled as a character automaton and proved equivalent to
  the shape it describes.

Inputs that the code receives from the outside world are parameters of the
model:

- what `HttpClient.SendAsync` did (`SendOutcome`: a status with a body that read or failed to read, or an exception of some kind);
- the frames a vendor's stream decoder produced (`seq<Option<ChatResult>>`);
- the vendor's response decoder (a function parameter);
- the set of OpenAI reasoning models;
- the credentials record of the provider.

## Model

| member | source | states |
|---|---|---|
| Common.PresentAppend | LlmTornado/EndpointBase.cs:555-564 | skipping null items distributes over concatenation: the items kept from `a + b` are those kept from `a`, then those kept from `b` |
| Common.Present | LlmTornado/EndpointBase.cs:555-564 | the non-null items in order, never more than were given; its meaning is stated by `PresentAppend` and `PresentMembers` |
| Common.PresentMembers | LlmTornado/EndpointBase.cs:555-564 | a value survives the null-skipping filter exactly when it occurs non-null in the input |
| Common.ReplaceAllAbsent | LlmTornado/EndpointBase.cs:230-241 | ordinal `Replace` of a string that does not occur leaves the text unchanged |
| Common.ReplaceAll | LlmTornado/EndpointBase.cs:230-241 | ordinal, left-to-right, non-overlapping `string.Replace` with a non-empty key; its meaning is stated by `ReplaceAllAbsent` and `ReplaceAllKeepsAbsent` |
| Common.ReplaceAllKeepsAbsent | LlmTornado/EndpointBase.cs:230-241 | replacing by a bracketed marker that does not contain a bracket-free key cannot create that key: a key that is absent (or is the one replaced) is absent afterwards |
| Providers.FormatCopiesLiteral | LlmTornado/Code/EndpointProviderConverter.cs:18 | text without braces is copied verbatim by `string.Format` |
| Providers.Format | LlmTornado/Code/EndpointProviderConverter.cs:18 | .NET composite formatting of `{0}`/`{1}` placeholders, failing on an index past the arguments; its meaning is stated by `FormatCopiesLiteral`, `FormatSubstitutes` and `FormatConcat` |
| Providers.FormatSubstitutes | LlmTornado/Code/EndpointProviderConverter.cs:18 | a placeholder `{d}` is replaced verbatim by argument `d` |
| Providers.GroqDefaultUrl | LlmTornado/Code/EndpointProviderConverter.cs:16-19 | with no `ApiUrlFormat` the Groq URL is `https://api.groq.com/openai/` + version + `/` + endpoint fragment + suffix, whatever characters the version and fragment contain |
| Providers.GroqUrl | LlmTornado/Code/EndpointProviderConverter.cs:16-19 | the Groq URL from the configured template or the default one; its meaning is stated by `GroqDefaultUrl` and `GroqTemplateOutOfRange` |
| Providers.FormatConcat | LlmTornado/Code/EndpointProviderConverter.cs:18 | a template that formats on its own formats the same way in front of any continuation |
| Providers.GroqTemplateOutOfRange | LlmTornado/Code/EndpointProviderConverter.cs:18 | every custom template that formats cleanly up to a placeholder `{2}`–`{9}` makes the resolver fail with a format error instead of producing a URL, whatever follows |
| Registry.ConvertedShape | LlmTornado/Code/EndpointProviderConverter.cs:10-21 | the four named vendors get their own class and tag; Groq gets the OpenAI class tagged Groq with the URL resolver; every other value falls back to a plain OpenAI provider; only Groq has the resolver |
| Registry.EndpointProvider.constructor | LlmTornado/Code/EndpointProviderConverter.cs:12-20 | the provider records its vendor tag, class, resolver and the API it was built for |
| Registry.EndpointProvider.ApiUrl | LlmTornado/Code/EndpointProviderConverter.cs:16-20 | without the resolver the vendor class builds the URL; with it, the URL is the Groq resolver's result for the API's current template and version, failing exactly when it fails, and with no custom template it is the Groq default |
| Registry.CreateProvider | LlmTornado/Code/EndpointProviderConverter.cs:8-22 | every call returns a new provider object of the converter's shape, bound to the given API |
| Registry.FirstWins | LlmTornado/TornadoApi.cs:73-79 | each credentials entry in the table is filed under its own vendor |
| Registry.FirstWinsDomain | LlmTornado/TornadoApi.cs:73-79 | the table has credentials for exactly the vendors that occur in the list |
| Registry.FirstWinsKeepsFirst | LlmTornado/TornadoApi.cs:73-79 | for every vendor the table holds the first entry given for it; later duplicates are ignored |
| Registry.LaterNotInInit | LlmTornado/TornadoApi.cs:75-78 | before its `TryAdd`, an entry whose vendor is new is not in the table |
| Registry.TornadoApi.constructor | LlmTornado/TornadoApi.cs:47-60 | a fresh API has no credentials, no cached providers, no URL template, version `v1` and no interceptor |
| Registry.TornadoApi.ForProvider | LlmTornado/TornadoApi.cs:65-68 | exactly one credentials entry, for the given vendor, with the organization when given (the `(apiKey, provider)` overload at lines 86-89 is this without an organization); otherwise as a fresh API |
| Registry.TornadoApi.WithOrganization | LlmTornado/TornadoApi.cs:97-100 | exactly one credentials entry, for the given vendor (OpenAI by default), with key and organization |
| Registry.TornadoApi.WithKeys | LlmTornado/TornadoApi.cs:73-79 | the credentials table is the first-wins table of the list; no provider is cached |
| Registry.TornadoApi.GetProviderAuthentication | LlmTornado/TornadoApi.cs:106-109 | the registered credentials of a vendor, and null exactly when none are registered |
| Registry.TornadoApi.GetProvider | LlmTornado/TornadoApi.cs:130-141 | a cached provider is returned and the cache is unchanged; otherwise a new provider of the converter's shape is created, cached under the vendor and returned |
| Registry.TornadoApi.GetProviderForModel | LlmTornado/TornadoApi.cs:148-151 | the same as `GetProvider` for the vendor that serves the model |
| Registry.GetProviderTwice | LlmTornado/TornadoApi.cs:130-141 | two sequential calls for one vendor return the same object, and the cache gains at most that vendor |
| Transport.ReplaceSecret | LlmTornado/EndpointBase.cs:230-241 | a null secret leaves the text alone; replacing fails exactly when the secret is empty (`string.Replace` rejects an empty old value) |
| Transport.Redact | LlmTornado/EndpointBase.cs:228-241 | without credentials the body is unchanged; redaction fails with the empty-key error exactly when the key or the organization is the empty string |
| Transport.RedactionHidesSecrets | LlmTornado/EndpointBase.cs:228-241 | for non-empty, bracket-free secrets that are not inside a marker, neither the key nor the organization occurs in the redacted body, whatever the body |
| Transport.StraddlingKeySurvives | LlmTornado/EndpointBase.cs:230-241 | a key ending in `[` can survive: key `Y[` in body `YY[` redacts to `Y` + marker, which still contains `Y[` |
| Transport.KeyInsideMarkerSurvives | LlmTornado/EndpointBase.cs:230-241 | a key that is part of the marker text (`API`) survives redaction inside the marker |
| Transport.FailureFor | LlmTornado/EndpointBase.cs:250-255 | 401 gives the authentication error, exactly 500 the server error, any other status the generic request error; the latter two are HTTP request exceptions carrying status, body, endpoint and url |
| Transport.Rewrap | LlmTornado/EndpointBase.cs:257-264 | every caught exception becomes a new one naming verb and url, with the original inside; HTTP-request and task-cancelled kinds are kept, every other kind becomes plain |
| Transport.ResolveRequest | LlmTornado/EndpointBase.cs:200-201 | a given url is used unchanged and a null one is built by the provider (a format failure is an error); a missing verb is GET |
| Transport.HttpRequestRaw | LlmTornado/EndpointBase.cs:198-266 | the response exactly when the request resolves and the status is 2xx; a url that cannot be built fails with the format error itself; every other failure names verb and url and wraps the send failure, the empty-key error of a failed redaction, or the status-chosen exception over the redacted body |
| Transport.FailureBodyHidesSecrets | LlmTornado/EndpointBase.cs:217-255 | on a non-2xx response the status-chosen exception's body contains neither the API key nor the organization, for secrets redaction can remove |
| Transport.UnauthorizedBecomesPlain | LlmTornado/EndpointBase.cs:250-264 | a 401 response surfaces as a plain exception, not as an authentication exception |
| Transport.HttpRequestRawKinds | LlmTornado/EndpointBase.cs:257-264 | once the request exists, every failure is an HTTP-request, task-cancelled or plain exception |
| Transport.HttpRequestRawWithAllCodes | LlmTornado/EndpointBase.cs:268-319 | never fails once the request exists, and always carries it; data exactly on 2xx; otherwise "Http call failed" with the status and redacted body, the empty-key error when redaction throws, or the send failure as it was |
| Transport.HttpRequestRawTyped | LlmTornado/EndpointBase.cs:374-404 | ok with the decoded data exactly for a readable 2xx response the decoder accepts; only an unbuildable URL, an unreadable 2xx body or a decoder exception escape as errors (`UrlFormatFailed`, `ContentReadFailed`, the decoder's own); every other failure is a Service Unavailable result with no data and no response, carrying the exception of `HttpRequestRawWithAllCodes` |
| Transport.HttpRequest | LlmTornado/EndpointBase.cs:360-372 | ok exactly when the raw request succeeds, its body reads and the decoder accepts it, with the decoded value; otherwise the raw request's exception, the read failure or the decoder's exception |
| Transport.HttpStreamingRequest | LlmTornado/EndpointBase.cs:549-565 | a failed handshake yields nothing and its exception; after a successful one, the non-null frames in arrival order, each stamped with the provider |
| Transport.HttpStreamingRequestData | LlmTornado/EndpointBase.cs:567-592 | never fails once the request exists; carries the request; has an exception exactly when the response is not 2xx, and a response exactly when it has no exception |
| Transport.ClientTable.constructor | LlmTornado/EndpointBase.cs:28-31 | the default user agent, a timeout of 600 seconds and no client created yet |
| Transport.ClientTable.GetClient | LlmTornado/EndpointBase.cs:31-54 | the vendor's existing client, or a new one with the current timeout that has not sent, created on first use and kept |
| Transport.ClientTable.SendThrough | LlmTornado/EndpointBase.cs:203-210 | a request goes out through the vendor's client (created if missing), which is started from then on; no other client changes |
| Transport.WithTimeout | LlmTornado/EndpointBase.cs:99 | the `HttpClient.Timeout` setter: a value that is not positive or exceeds `int.MaxValue` milliseconds throws out-of-range, then a client that has sent throws invalid-operation; otherwise only the timeout changes |
| Transport.FirstStarted | LlmTornado/EndpointBase.cs:97-100 | the first vendor in order whose client has sent, or the end when none has |
| Transport.ClientTable.SetRequestsTimeout | LlmTornado/EndpointBase.cs:95-103 | the clients and the exception are those of the pass over the vendors in declaration order; the stored timeout changes only when no setter threw |
| Transport.TimeoutPass | LlmTornado/EndpointBase.cs:97-100 | the loop over the vendors in declaration order, stopping at the first setter that throws; its meaning is stated by `TimeoutPassOutcome` and `TimeoutPassClient` |
| Transport.ClientTable.GetRequestsTimeout | LlmTornado/EndpointBase.cs:85-88 | the stored timeout; it reads back the value of a completed `SetRequestsTimeout` (its ensures) and of `TimeoutThenNewClient` |
| Transport.TimeoutPassOutcome | LlmTornado/EndpointBase.cs:95-103 | the pass fails exactly when it stops before the last vendor: at once with the out-of-range exception for a rejected value, else at the first started client with the invalid-operation exception |
| Transport.TimeoutPassClient | LlmTornado/EndpointBase.cs:95-103 | vendors before the stop have their client (created if missing) with the new timeout; the vendor at the stop has its client created but unchanged; every other client is as it was |
| Transport.TimeoutAfterRequestFails | LlmTornado/EndpointBase.cs:95-103 | once any request has gone out, setting a valid timeout throws invalid-operation and the stored timeout is unchanged |
| Transport.ClientTable.SetUserAgent | LlmTornado/EndpointBase.cs:109-120 | the user agent reads back as set |
| Transport.ClientTable.GetUserAgent | LlmTornado/EndpointBase.cs:117-120 | the stored user agent; it reads back what `SetUserAgent` set (its ensures) |
| Transport.TimeoutThenNewClient | LlmTornado/EndpointBase.cs:85-103 | before any request, after setting a valid timeout both the stored timeout and any client fetched afterwards have it |
| Messages.WriteToolCall | LlmTornado/Chat/ChatRequest.cs:412-431 | appends one tool-call object: id, type and the function object |
| Messages.WriteFunction | LlmTornado/Chat/ChatRequest.cs:420-429 | appends the function object: name and arguments |
| Messages.WriteToolCalls | LlmTornado/Chat/ChatRequest.cs:410-432 | appends the tool-call objects in order |
| Messages.WritePart | LlmTornado/Chat/ChatRequest.cs:466-501 | appends one part: its wire type name (Text "text", Image "image_url", Audio "audio_url", other types "text") and the text, the image url, or nothing |
| Messages.WriteParts | LlmTornado/Chat/ChatRequest.cs:460-505 | appends the part objects in order |
| Messages.WriteToolCallId | LlmTornado/Chat/ChatRequest.cs:392-401 | appends `tool_call_id` exactly for tool messages |
| Messages.WriteToolCallsProperty | LlmTornado/Chat/ChatRequest.cs:402-438 | appends the `tool_calls` array exactly for assistant messages that have tool calls |
| Messages.WriteName | LlmTornado/Chat/ChatRequest.cs:442-446 | appends `name` exactly when it is not null or white space |
| Messages.WriteContent | LlmTornado/Chat/ChatRequest.cs:448-509 | no `content` for a tool message with null content or an assistant message with null content and tool calls; a part array when there are parts; the plain content otherwise |
| Messages.WriteMessage | LlmTornado/Chat/ChatRequest.cs:387-512 | appends one message object: raw role, role-dependent keys, name and content, in that order |
| Messages.WriteMessages | LlmTornado/Chat/ChatRequest.cs:385-513 | appends the message objects in order |
| Messages.WriteJson | LlmTornado/Chat/ChatRequest.cs:375-516 | appends null for a null list, else an array of the message objects |
| Messages.ToolCallRoundTrip | LlmTornado/Chat/ChatRequest.cs:412-431 | reading a written tool call gives back its id, type, name and arguments and leaves the rest of the tokens |
| Messages.ToolCallsRoundTrip | LlmTornado/Chat/ChatRequest.cs:404-435 | reading written tool calls gives back each call in order |
| Messages.PartRoundTrip | LlmTornado/Chat/ChatRequest.cs:464-502 | reading a written part gives back its text for text parts, its url for image parts and only its type name for the others |
| Messages.PartsRoundTrip | LlmTornado/Chat/ChatRequest.cs:460-505 | reading written parts gives back each part in order |
| Messages.ToolIdRoundTrip | LlmTornado/Chat/ChatRequest.cs:396-401 | the tool call id is read back exactly for tool messages |
| Messages.ToolCallsStageRoundTrip | LlmTornado/Chat/ChatRequest.cs:402-438 | the tool calls are read back exactly for assistant messages that have them |
| Messages.NameRoundTrip | LlmTornado/Chat/ChatRequest.cs:442-446 | the name is read back exactly when it is not null or white space |
| Messages.ContentRoundTrip | LlmTornado/Chat/ChatRequest.cs:448-509 | the content is read back as absent, as the part list, or as the plain value, by the suppression and parts rules |
| Messages.MessageRoundTrip | LlmTornado/Chat/ChatRequest.cs:387-512 | reading a written message gives back its view: raw role, tool call id, tool calls, name and content by the rules above |
| Messages.MessagesRoundTrip | LlmTornado/Chat/ChatRequest.cs:385-513 | reading written messages gives back each message's view in order |
| Messages.WriteJsonRoundTrip | LlmTornado/Chat/ChatRequest.cs:375-516 | reading the whole `messages` value gives back null for null and the view of every message otherwise |
| ChatRequests.CopiedState | LlmTornado/Chat/ChatRequest.cs:39-68 | the copy has the base's 21 copied fields (stream options on both backing fields); `Stream`, `MaxTokensSerializer`, `CancellationToken` and `UrlOverride` keep false, Auto, None and null |
| ChatRequests.FirstStop | LlmTornado/Chat/ChatRequest.cs:176 | the first stop sequence, or null exactly when the list is null or empty |
| ChatRequests.CompiledStop | LlmTornado/Chat/ChatRequest.cs:149-160 | absent for a null or empty list, the single string for one sequence, the array for two or more; it always sends exactly the listed sequences |
| ChatRequests.WireOf | LlmTornado/Chat/ChatRequest.cs:122-160 | what is sent: the messages as the converter writes them, the compiled stop value and the serialized stream options |
| ChatRequests.IgnoredFieldsNotSent | LlmTornado/Chat/ChatRequest.cs:128-290 | two requests that differ only in `[JsonIgnore]` fields serialize alike |
| ChatRequests.SerializedBody | LlmTornado/Chat/ChatRequest.cs:309-358 | an empty body exactly for vendors without a table entry; the request's own JSON for OpenAI and Groq (Groq without logit bias); the vendor request class for Anthropic, Cohere and Google; `max_completion_tokens` only for OpenAI, for that serializer or Auto with a reasoning model |
| ChatRequests.MaxCompletionTokensOnlyForOpenAi | LlmTornado/Chat/ChatRequest.cs:311-336 | the token limit goes out as `max_completion_tokens` exactly for OpenAI with the `MaxCompletionTokens` serializer, or Auto with a reasoning model |
| ChatRequests.ChatRequest.constructor | LlmTornado/Chat/ChatRequest.cs:31-33 | a new request has the field initializers' values: GPT-3.5 Turbo, response trimming on, Auto serializer, everything else null, false or None |
| ChatRequests.ChatRequest.BasedOn | LlmTornado/Chat/ChatRequest.cs:39-68 | a null base gives a default request; otherwise the copy of the base |
| ChatRequests.ChatRequest.SetStopSequence | LlmTornado/Chat/ChatRequest.cs:177-181 | a non-null value makes the stop list exactly that one string (read back by the getter and compiled to a single stop); null changes nothing |
| ChatRequests.ChatRequest.SetStreamOptions | LlmTornado/Chat/ChatRequest.cs:132-136 | both backing fields take the value and nothing else changes |
| ChatRequests.ChatRequest.Serialize | LlmTornado/Chat/ChatRequest.cs:355-358 | the table's body for the provider's vendor with the URL override; for Groq the caller's own request has lost its logit bias afterwards, for the others it is unchanged |
| Chat.MergedState | LlmTornado/Chat/ChatEndpoint.cs:178-190 | the messages are the argument; each of the eight optional arguments wins when non-null, else the default's field; everything else is the copy of the defaults |
| Chat.OmittedStopsDiscardDefaults | LlmTornado/Chat/ChatEndpoint.cs:176-185 | with no stop arguments the empty `params` array replaces the defaults' stops, which compile to no stop |
| Chat.UserMessage | LlmTornado/Chat/ChatEndpoint.cs:221 | a user message with the string as its content and no parts or tool calls |
| Chat.UserMessages | LlmTornado/Chat/ChatEndpoint.cs:219-222 | one user message per string, in order |
| Chat.Indexed | LlmTornado/Chat/ChatEndpoint.cs:242-247 | every item paired with its position |
| Chat.IndexedSnoc | LlmTornado/Chat/ChatEndpoint.cs:246 | the next item gets the next index |
| Chat.SkipNull | LlmTornado/Chat/ChatEndpoint.cs:326-329 | a null frame adds nothing to what has been yielded |
| Chat.KeepPresent | LlmTornado/Chat/ChatEndpoint.cs:331 | a non-null frame is yielded after the earlier ones |
| Chat.ChatStream.constructor | LlmTornado/Chat/ChatEndpoint.cs:295 | a stream not yet started, with nothing yielded, sent, disposed or handed to a hook |
| Chat.ChatStream.Start | LlmTornado/Chat/ChatEndpoint.cs:297-322 | the request is serialized and sent with its URL override, then the handshake's outcome is handled as `Opened` says |
| Chat.ChatStream.Open | LlmTornado/Chat/ChatEndpoint.cs:298-322 | a failed handshake without an exception hook throws its exception with nothing disposed; with the hook, the hook gets the failure once, the stream request is disposed once and the stream ends empty; on success the outbound hook gets the request once when both are present |
| Chat.ChatStream.SkipNulls | LlmTornado/Chat/ChatEndpoint.cs:324-329 | the cursor moves past null frames only, up to a non-null frame or the end |
| Chat.ChatStream.Advance | LlmTornado/Chat/ChatEndpoint.cs:324-334 | either the next non-null frame is yielded, or, past the last frame, the stream request is disposed once and the stream ends having yielded exactly the non-null frames |
| Chat.ChatStream.MoveNext | LlmTornado/Chat/ChatEndpoint.cs:295-335 | true exactly when an item is yielded (appended to what was yielded, with progress); an error only from a failed handshake; an ended stream stays ended and unchanged; the natural end yields the non-null frames and disposes once |
| Chat.ChatStream.Abandon | LlmTornado/Chat/ChatEndpoint.cs:324-334 | leaving early ends the stream without disposing it |
| Chat.InitializeSampling | LlmTornado/Chat/ChatEndpoint.cs:180-184 | the first five initializer assignments set messages, model, temperature, top-p and choice count |
| Chat.InitializeLimits | LlmTornado/Chat/ChatEndpoint.cs:185-189 | the last five set the stop list, token limit, penalties and logit bias |
| Chat.ChatEndpoint.constructor | LlmTornado/Chat/ChatEndpoint.cs:39-42 | the default request arguments are a new default request with GPT-3.5 Turbo; no interceptor call yet |
| Chat.ChatEndpoint.CreateChatCompletion | LlmTornado/Chat/ChatEndpoint.cs:85-97 | the provider of the request's model (GPT-3.5 Turbo's when null), the serialized request posted through `HttpRequest`; the interceptor, when set, is called once with the request and the result; afterwards the caller's request has `LogitBias` cleared for Groq and is otherwise unchanged; the provider is the cached one, or a new one now cached |
| Chat.ChatEndpoint.CreateChatCompletionSafe | LlmTornado/Chat/ChatEndpoint.cs:109-121 | as above through the typed safe call; the interceptor is called only when the result is ok; the same request state afterwards and the same provider cache rule |
| Chat.ChatEndpoint.MergedRequest | LlmTornado/Chat/ChatEndpoint.cs:178-190 | a new request whose state is the merge of the arguments with the defaults |
| Chat.ChatEndpoint.CreateChatCompletionWith | LlmTornado/Chat/ChatEndpoint.cs:167-193 | the merged request sent as a blocking completion to the provider of its model (GPT-3.5 Turbo's when null), with the posted body and the result of `HttpRequest`; the interceptor, when set and the call did not throw, gets exactly one more call, on a new request, with the result; otherwise its calls are unchanged; the provider is the cached one, or a new one now cached |
| Chat.ChatEndpoint.CreateChatCompletionFromMessages | LlmTornado/Chat/ChatEndpoint.cs:201-208 | a copy of the defaults with these messages, sent as a blocking completion to the provider of its model, with the posted body and the result of `HttpRequest`; the interceptor, when set and the call did not throw, gets exactly one more call, on a new request, with the result; otherwise its calls are unchanged; the provider is the cached one, or a new one now cached |
| Chat.ChatEndpoint.CreateChatCompletionFromText | LlmTornado/Chat/ChatEndpoint.cs:219-222 | a copy of the defaults with one user message per string, sent as a blocking completion to the provider of its model, with the posted body and the result of `HttpRequest`; the interceptor, when set and the call did not throw, gets exactly one more call, on a new request, with the result; otherwise its calls are unchanged; the provider is the cached one, or a new one now cached |
| Chat.ChatEndpoint.StreamChatEnumerable | LlmTornado/Chat/ChatEndpoint.cs:284-293 | a new, not yet started stream over a copy of the request with `Stream` set, for the provider of its model (GPT-3.5 Turbo's when null), the cached one or a new one now cached; the caller's request is untouched |
| Chat.ChatEndpoint.StreamChatEnumerableWith | LlmTornado/Chat/ChatEndpoint.cs:396-421 | a stream over the copy, with `Stream` set, of the merged request, for the cached provider of its model or a new one now cached |
| Chat.StreamCompletion | LlmTornado/Chat/ChatEndpoint.cs:242-247 | the callback gets indices 0, 1, 2, … in yield order; on every handshake outcome, what is thrown, handed, disposed and passed to the hooks |
| Chat.HandFrames | LlmTornado/Chat/ChatEndpoint.cs:246 | from a successful handshake to the natural end every non-null frame is handed with its index and the stream request is disposed once |
| Chat.BreakAfterFirst | LlmTornado/Chat/ChatEndpoint.cs:324-334 | leaving after the first result ends the stream with that result yielded and no disposal |
| Assistants.ToList | LlmTornado/Assistants/CreateAssistantRequest.cs:97-98 | the copied list has the same elements in the same order |
| Assistants.ModelOrDefault | LlmTornado/Assistants/CreateAssistantRequest.cs:93 | the given model unless it is null or its name is null or white space, in which case GPT-3.5 Turbo; the result's name is never blank |
| Assistants.NewCreateAssistantRequest | LlmTornado/Assistants/CreateAssistantRequest.cs:91-100 | the defaulted model; name, description, instructions and metadata as given; copies of the tool and file lists, or null |
| Assistants.FromAssistant | LlmTornado/Assistants/CreateAssistantRequest.cs:51-53 | each field is the explicit argument when given, else the assistant's, passed through the main constructor |
| Assistants.CopyOfAssistant | LlmTornado/Assistants/CreateAssistantRequest.cs:51-53 | with no explicit argument the request reproduces the assistant's fields, and its model when that has a name |
| Assistants.LimitsNotEnforced | LlmTornado/Assistants/CreateAssistantRequest.cs:91-100 | inputs over the documented limits (256, 512, 128, 20, 16) are stored as given |
| Moderation.Keys | LlmTornado/Moderation/ModerationResult.cs:65 | `Select(kv => kv.Key)`: the keys in order |
| Moderation.FlaggedKeys | LlmTornado/Moderation/ModerationResult.cs:65 | the filter keeps at most the entries it is given |
| Moderation.FlaggedKeysMembers | LlmTornado/Moderation/ModerationResult.cs:65 | a category is kept exactly when its flag is true |
| Moderation.Lookup | LlmTornado/Moderation/ModerationResult.cs:65 | the dictionary indexer finds a score exactly when the key is present, and the score is the key's |
| Moderation.ScoresOf | LlmTornado/Moderation/ModerationResult.cs:65 | the sort keys of the flagged categories in order; a missing key is a key-not-found error naming it |
| Moderation.InsertPermutes | LlmTornado/Moderation/ModerationResult.cs:65 | one insertion step adds exactly the inserted entry |
| Moderation.InsertSorted | LlmTornado/Moderation/ModerationResult.cs:65 | one insertion step keeps the order non-increasing |
| Moderation.InsertWithScore | LlmTornado/Moderation/ModerationResult.cs:65 | one insertion step places the entry after those of equal score |
| Moderation.SortDescendingCorrect | LlmTornado/Moderation/ModerationResult.cs:65 | `OrderByDescending` is a permutation into non-increasing order that keeps entries of equal score in their original order |
| Moderation.SortDescending | LlmTornado/Moderation/ModerationResult.cs:65 | the stable descending sort of `OrderByDescending(x => x.Value)`; its meaning is stated by `SortDescendingCorrect` |
| Moderation.KeysSortPermutes | LlmTornado/Moderation/ModerationResult.cs:65 | the sort permutes the keys |
| Moderation.FlaggedCategories | LlmTornado/Moderation/ModerationResult.cs:63-66 | null categories fail with the null-source `ArgumentNullException`; with null scores, the flagged categories in dictionary order; with scores, a missing flagged key fails with that key, else a permutation of the flagged categories |
| Moderation.FlaggedCategoriesMembers | LlmTornado/Moderation/ModerationResult.cs:65 | exactly the flagged categories are listed |
| Moderation.FlaggedCategoriesSorted | LlmTornado/Moderation/ModerationResult.cs:65 | the listed categories' scores never increase |
| Moderation.FlaggedCategoriesStable | LlmTornado/Moderation/ModerationResult.cs:65 | categories of equal score keep their dictionary order |
| Moderation.MainContentFlag | LlmTornado/Moderation/ModerationResult.cs:71 | fails exactly when the list fails; null exactly when nothing is flagged; otherwise a flagged category |
| Moderation.MainContentFlagHighest | LlmTornado/Moderation/ModerationResult.cs:71 | the main flag's score is at least that of every flagged category |
| Moderation.HighestFlagScore | LlmTornado/Moderation/ModerationResult.cs:76-79 | fails on null scores (`ArgumentNullException` from `OrderByDescending`) or no scores (empty sequence); otherwise a score that occurs and is at least every score |
| Moderation.ToString | LlmTornado/Moderation/ModerationResult.cs:30-33 | null for null results, an empty-sequence failure for no results, null for a null first result, otherwise the first result's main flag |
| NamespaceRefactor.IndentRun | PythonRefactoringScripts/NamespaceRefactor.py:8 | `^\s*` consumes the indentation and hands over to the keyword |
| NamespaceRefactor.KeywordRun | PythonRefactoringScripts/NamespaceRefactor.py:8 | the literal `namespace` is matched letter by letter |
| NamespaceRefactor.GapRun | PythonRefactoringScripts/NamespaceRefactor.py:8 | `\s+` needs at least one space and consumes them all |
| NamespaceRefactor.NameRun | PythonRefactoringScripts/NamespaceRefactor.py:8 | `(\w+);` captures the word characters and succeeds exactly when a `;` stops them |
| NamespaceRefactor.MatchNamespaceComplete | PythonRefactoringScripts/NamespaceRefactor.py:8-15 | every line of the pattern's shape matches with the name as group 1, whatever follows the `;` |
| NamespaceRefactor.MatchNamespace | PythonRefactoringScripts/NamespaceRefactor.py:8-13 | `re.match` of the namespace pattern, giving group 1; its meaning is stated by `MatchNamespaceSound` and `MatchNamespaceComplete` |
| NamespaceRefactor.NameSound | PythonRefactoringScripts/NamespaceRefactor.py:8 | a successful name run is word characters then `;` |
| NamespaceRefactor.GapSound | PythonRefactoringScripts/NamespaceRefactor.py:8 | a successful gap run is non-empty white space |
| NamespaceRefactor.KeywordSound | PythonRefactoringScripts/NamespaceRefactor.py:8 | a successful keyword run starts with the rest of the keyword |
| NamespaceRefactor.IndentSound | PythonRefactoringScripts/NamespaceRefactor.py:8 | a successful match starts with white space and then the keyword |
| NamespaceRefactor.MatchNamespaceSound | PythonRefactoringScripts/NamespaceRefactor.py:8-15 | every match is a line of the pattern's shape, cut at the captured name |
| NamespaceRefactor.DottedNameNoMatch | PythonRefactoringScripts/NamespaceRefactor.py:8 | `namespace A.B;` does not match |
| NamespaceRefactor.FirstMatch | PythonRefactoringScripts/NamespaceRefactor.py:12-17 | none exactly when no line matches; otherwise the index of a matching line |
| NamespaceRefactor.FirstMatchSnoc | PythonRefactoringScripts/NamespaceRefactor.py:12-19 | the first match of a list extended by one line is the old one, or the new line when none matched before and it matches |
| NamespaceRefactor.StripEndSpec | PythonRefactoringScripts/NamespaceRefactor.py:23 | `rstrip`: a prefix followed only by white space, not ending in white space |
| NamespaceRefactor.StripEnd | PythonRefactoringScripts/NamespaceRefactor.py:23 | `rstrip()`; its meaning is stated by `StripEndSpec` |
| NamespaceRefactor.StripStart | PythonRefactoringScripts/NamespaceRefactor.py:23 | `lstrip()`; its meaning is stated by `StripStartSpec` |
| NamespaceRefactor.Strip | PythonRefactoringScripts/NamespaceRefactor.py:23 | `strip()`; its meaning is stated by `StripSpec` |
| NamespaceRefactor.StripStartSpec | PythonRefactoringScripts/NamespaceRefactor.py:23 | `lstrip`: a suffix preceded only by white space, not starting with white space |
| NamespaceRefactor.StripSpec | PythonRefactoringScripts/NamespaceRefactor.py:23 | `strip` is empty exactly for all-space text, and keeps the last non-space character |
| NamespaceRefactor.WithClosingBrace | PythonRefactoringScripts/NamespaceRefactor.py:21-24 | `}\n` is appended exactly when the last line, stripped, does not end with `}` |
| NamespaceRefactor.Converted | PythonRefactoringScripts/NamespaceRefactor.py:4-26 | nothing is written exactly when no line matches; otherwise the first match becomes the block header, every other line is copied in order, and at most one line is appended |
| NamespaceRefactor.ConvertNamespace | PythonRefactoringScripts/NamespaceRefactor.py:9-26 | the loop with its `namespace_found` flag, then the brace rule, writes exactly `Converted` |
| NamespaceRefactor.IndentAndTrailerDropped | PythonRefactoringScripts/NamespaceRefactor.py:8-16 | the matched line's indentation and whatever follows its `;` are dropped from the header |
| NamespaceRefactor.ClosingBraceStrips | PythonRefactoringScripts/NamespaceRefactor.py:23-24 | the appended line, stripped, ends with `}` |
| NamespaceRefactor.ConvertedEndsClosed | PythonRefactoringScripts/NamespaceRefactor.py:21-24 | a rewritten file's last line, stripped, always ends with `}` |
| NamespaceRefactor.ClosingBraceRule | PythonRefactoringScripts/NamespaceRefactor.py:21-24 | the output has one more line exactly when the last rewritten line, stripped, does not end with `}`, and that line is `}\n` |
| NamespaceRefactor.MatchOnLastLineCloses | PythonRefactoringScripts/NamespaceRefactor.py:16-24 | a match on the last line always gets a closing brace, since the header ends with `{` |
| NamespaceRefactor.HeaderDoesNotMatch | PythonRefactoringScripts/NamespaceRefactor.py:8-16 | the block header is not itself a match |
| NamespaceRefactor.ClosingBraceDoesNotMatch | PythonRefactoringScripts/NamespaceRefactor.py:8-24 | the appended brace line is not a match |
| NamespaceRefactor.ConvertTwiceLeavesFile | PythonRefactoringScripts/NamespaceRefactor.py:4-26 | on a file with one matching line, a second run writes nothing |

## Left out

- Real HTTP I/O, with `HttpClient`, `SocketsHttpHandler`, header setup and body and stream reading (LlmTornado/EndpointBase.cs:31-54, 203-210). A send is an input `SendOutcome`. The frames a vendor decoder produces are an input sequence. Reading the body either yields text or fails.
- Newtonsoft.Json and the foreign or unshown types:
  - the contract resolver that renames `max_tokens`, modelled as a flag on the body;
  - the vendor request classes for Anthropic, Cohere and Google, modelled as an opaque body naming the vendor and the request;
  - the concrete endpoint-provider classes and their decoders, modelled as an opaque URL builder and a decoder parameter. The decoder is any function from the body text to a value, a null, or an exception (a `JsonException`, say); what Newtonsoft.Json accepts is not modelled.
- The `LLmProviders` enumeration is not part of this model. Its named members appear, and every other value is `Other(code)`. The set of OpenAI reasoning models (`ChatModelOpenAiGpt4.ReasoningModels`) is a parameter.
- Concurrency, `Lazy<T>`, `ConcurrentDictionary` races and async scheduling. Only the sequential behaviour is modelled. Lazy client creation is creation on first use.
- The cancellation token is carried but never observed.
- Floating-point values: temperatures, penalties, logit biases and moderation scores are `real`, and NaN is not modelled.
- The text of error messages. Exceptions are data carrying kind, status, redacted body, endpoint, verb and url. The JSON dump of request headers is left out.
- Transport.Redact: the credentials record is passed in as the one `TornadoApi` holds for the provider's vendor. The `GetProvider` call it comes from (LlmTornado/EndpointBase.cs:228) also caches a provider, and that side effect is not modelled at that point.
- The response-header parsing used for the returned metadata (`ParseInboundHeaders`) is left out.
- Providers.FormatSubstitutes: .NET composite formatting is modelled only as far as a URL template uses it: `{0}`…`{9}`, `{{` and `}}`. Alignment and format specifiers (`{0,5}`, `{0:x}`) are treated as malformed.
- Transport.ClientTable.SetRequestsTimeout: the truncation of `TotalSeconds` to `int` is not modelled, because it is exact for whole seconds. The infinite timeout the .NET setter also accepts cannot be reached from a whole number of seconds.
- Transport.ClientTable.GetClient: a new client gets the stored timeout only when `TornadoConfig.CreateClient` is null (LlmTornado/EndpointBase.cs:39-47). A client from a user factory is not modelled; `TornadoConfig` is not part of this model.
- The per-vendor HTTP clients are values in the table, so a caller holding a client while another call changes it (aliasing) is not modelled. The only client state kept is the timeout and whether a request has been sent.
- Lists are values. A copied request shares its collections by reference in C#, and that aliasing is not observable in the model: it holds equal values.
- The lazily created capability endpoints of `TornadoApi` other than chat are left out, as are the model catalog files.
- ChatMessage.cs is not part of this model. Messages hold exactly the fields the converter reads.
- Chat.ChatStream.Start: `StreamChatReal` asks `GetProvider` a second time for the handshake. The model uses the stream's own provider. That is the same object, because the cache returns it (`Registry.GetProviderTwice`).
- `CreateConversation` (LlmTornado/Chat/ChatEndpoint.cs:50-71) is left out, because the `Conversation` class is not part of this model. `StreamChatFake` (344-349) is unused.
- `StreamChatAsync` (LlmTornado/Chat/ChatEndpoint.cs:260-263) is `StreamCompletionAsync` without the index, and is not modelled separately.
- The `AssistantResponse` and `Model` types are not part of this model. Only the fields the constructors read are modelled. The conversion of a model to its string name is the name itself.
- In `NamespaceRefactor.py`, `process_directory`, `convert_single_namespace` and the `__main__` block are left out, because they are directory walking and file I/O. So is the whole of `RequiredKeywordRefactoring.py`. The file's lines are the input of `convert_namespace`, and what it would write is the output, `None` standing for "file not rewritten".
- NamespaceRefactor.IsWordChar: Python's `\w` on `str` is Unicode-aware. The model uses ASCII letters, digits and `_`. `\s` is modelled as the full `str.isspace` set.
