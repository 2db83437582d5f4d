/** The chat messages of a request and the hand-written JSON converter that
    writes them (`ChatMessageRequestMessagesJsonConverter.WriteJson`). The JSON
    writer is modelled by the tokens it has been given; a reader of those
    tokens recovers what each message contributes to the wire format. */
module Messages {
  import opened Common

  datatype ChatMessageRoles = System | User | Assistant | Tool

  /** The part types; `OtherType` stands for the remaining enumeration values. */
  datatype ChatMessageTypes = Text | Image | Audio | OtherType(code: int)

  /** A part of a multi-part message; `imageUrl` is `Image?.Url`. */
  datatype ChatMessagePart = ChatMessagePart(partType: ChatMessageTypes, text: Option<string>, imageUrl: Option<string>)

  /** A tool call issued by the assistant, with its function's name and arguments. */
  datatype ToolCall = ToolCall(id: Option<string>, callType: Option<string>, functionName: Option<string>, arguments: Option<string>)

  datatype ChatMessage = ChatMessage(
    role: Option<ChatMessageRoles>,
    rawRole: Option<string>,
    toolCallId: Option<string>,
    toolCalls: Option<seq<ToolCall>>,
    name: Option<string>,
    content: Option<string>,
    parts: Option<seq<ChatMessagePart>>)

  datatype JsonValue = JNull | JString(s: string)

  /** What one call of a `JsonWriter` method emits. */
  datatype Token = StartArray | EndArray | StartObject | EndObject | PropertyName(name: string) | Value(v: JsonValue)

  /** `WriteValue` of a nullable string. */
  function JV(s: Option<string>): JsonValue {
    match s
    case None => JNull
    case Some(t) => JString(t)
  }

  /** A JSON writer, seen through the tokens written so far. */
  class JsonWriter {
    var Tokens: seq<Token>

    constructor ()
      ensures Tokens == []
    {
      Tokens := [];
    }

    method WriteStartArray()
      modifies this
      ensures Tokens == old(Tokens) + [StartArray]
    {
      Tokens := Tokens + [StartArray];
    }

    method WriteEndArray()
      modifies this
      ensures Tokens == old(Tokens) + [EndArray]
    {
      Tokens := Tokens + [EndArray];
    }

    method WriteStartObject()
      modifies this
      ensures Tokens == old(Tokens) + [StartObject]
    {
      Tokens := Tokens + [StartObject];
    }

    method WriteEndObject()
      modifies this
      ensures Tokens == old(Tokens) + [EndObject]
    {
      Tokens := Tokens + [EndObject];
    }

    method WritePropertyName(name: string)
      modifies this
      ensures Tokens == old(Tokens) + [PropertyName(name)]
    {
      Tokens := Tokens + [PropertyName(name)];
    }

    method WriteValue(s: Option<string>)
      modifies this
      ensures Tokens == old(Tokens) + [Value(JV(s))]
    {
      Tokens := Tokens + [Value(JV(s))];
    }

    method WriteNull()
      modifies this
      ensures Tokens == old(Tokens) + [Value(JNull)]
    {
      Tokens := Tokens + [Value(JNull)];
    }
  }

  // ---------------------------------------------------------------------------
  // The tokens written for each element.

  /** The tokens of a list of elements, one element after another. */
  function ToolCallsFlat(cs: seq<ToolCall>): seq<Token>
    decreases |cs|
  {
    if cs == [] then [] else ToolCallTokens(cs[0]) + ToolCallsFlat(cs[1..])
  }

  function PartsFlat(ps: seq<ChatMessagePart>): seq<Token>
    decreases |ps|
  {
    if ps == [] then [] else PartTokens(ps[0]) + PartsFlat(ps[1..])
  }

  function MessagesFlat(ms: seq<ChatMessage>): seq<Token>
    decreases |ms|
  {
    if ms == [] then [] else MessageTokens(ms[0]) + MessagesFlat(ms[1..])
  }

  lemma {:induction false} ToolCallsFlatSnoc(cs: seq<ToolCall>, c: ToolCall)
    ensures ToolCallsFlat(cs + [c]) == ToolCallsFlat(cs) + ToolCallTokens(c)
    decreases |cs|
  {
    if cs == [] {
      assert [c][1..] == [];
    } else {
      assert (cs + [c])[1..] == cs[1..] + [c];
      ToolCallsFlatSnoc(cs[1..], c);
    }
  }

  lemma {:induction false} PartsFlatSnoc(ps: seq<ChatMessagePart>, p: ChatMessagePart)
    ensures PartsFlat(ps + [p]) == PartsFlat(ps) + PartTokens(p)
    decreases |ps|
  {
    if ps == [] {
      assert [p][1..] == [];
    } else {
      assert (ps + [p])[1..] == ps[1..] + [p];
      PartsFlatSnoc(ps[1..], p);
    }
  }

  lemma {:induction false} MessagesFlatSnoc(ms: seq<ChatMessage>, m: ChatMessage)
    ensures MessagesFlat(ms + [m]) == MessagesFlat(ms) + MessageTokens(m)
    decreases |ms|
  {
    if ms == [] {
      assert [m][1..] == [];
    } else {
      assert (ms + [m])[1..] == ms[1..] + [m];
      MessagesFlatSnoc(ms[1..], m);
    }
  }

  /** A tool call object: its id and type, then the function object. */
  function ToolCallTokens(c: ToolCall): seq<Token> {
    [StartObject, PropertyName("id"), Value(JV(c.id)), PropertyName("type"), Value(JV(c.callType)), PropertyName("function")]
    + FunctionTokens(c) + [EndObject]
  }

  /** The function object of a tool call: its name and arguments. */
  function FunctionTokens(c: ToolCall): seq<Token> {
    [StartObject, PropertyName("name"), Value(JV(c.functionName)), PropertyName("arguments"), Value(JV(c.arguments)), EndObject]
  }

  /** The wire name of a part type; unknown types are sent as text. */
  function PartTypeName(t: ChatMessageTypes): string {
    match t
    case Text => "text"
    case Image => "image_url"
    case Audio => "audio_url"
    case OtherType(_) => "text"
  }

  function PartPayload(p: ChatMessagePart): seq<Token> {
    match p.partType
    case Text => [PropertyName("text"), Value(JV(p.text))]
    case Image => [PropertyName("image_url"), StartObject, PropertyName("url"), Value(JV(p.imageUrl)), EndObject]
    case _ => []
  }

  function PartTokens(p: ChatMessagePart): seq<Token> {
    [StartObject, PropertyName("type"), Value(JString(PartTypeName(p.partType)))] + PartPayload(p) + [EndObject]
  }

  function ToolIdTokens(m: ChatMessage): seq<Token> {
    if m.role == Some(Tool) then [PropertyName("tool_call_id"), Value(JV(m.toolCallId))] else []
  }

  function ToolCallsTokens(m: ChatMessage): seq<Token> {
    if m.role == Some(Assistant) && m.toolCalls.Some? then
      [PropertyName("tool_calls"), StartArray] + ToolCallsFlat(m.toolCalls.value) + [EndArray]
    else []
  }

  function NameTokens(m: ChatMessage): seq<Token> {
    if !IsNullOrWhiteSpace(m.name) then [PropertyName("name"), Value(JV(m.name))] else []
  }

  /** A tool result without content, and an assistant message that only
      carries tool calls, have no "content" key at all. */
  predicate ContentSuppressed(m: ChatMessage) {
    (m.role == Some(Tool) && m.content.None?)
    || (m.role == Some(Assistant) && m.content.None? && m.toolCalls.Some?)
  }

  predicate HasParts(m: ChatMessage) {
    m.parts.Some? && |m.parts.value| > 0
  }

  function ContentTokens(m: ChatMessage): seq<Token> {
    if ContentSuppressed(m) then []
    else if HasParts(m) then [PropertyName("content"), StartArray] + PartsFlat(m.parts.value) + [EndArray]
    else [PropertyName("content"), Value(JV(m.content))]
  }

  function MessageHead(m: ChatMessage): seq<Token> {
    [StartObject, PropertyName("role"), Value(JV(m.rawRole))]
  }

  /** One message object: the raw role, then the role-dependent keys, the name
      and the content, in that order. */
  function MessageTokens(m: ChatMessage): seq<Token> {
    MessageHead(m) + ToolIdTokens(m) + ToolCallsTokens(m) + NameTokens(m) + ContentTokens(m) + [EndObject]
  }

  /** The whole "messages" value: null, or an array of message objects. */
  function MessagesTokens(value: Option<seq<ChatMessage>>): seq<Token> {
    match value
    case None => [Value(JNull)]
    case Some(ms) => [StartArray] + MessagesFlat(ms) + [EndArray]
  }

  // ---------------------------------------------------------------------------
  // The converter.

  method WriteToolCall(writer: JsonWriter, call: ToolCall)
    modifies writer
    ensures writer.Tokens == old(writer.Tokens) + ToolCallTokens(call)
  {
    writer.WriteStartObject();
    writer.WritePropertyName("id");
    writer.WriteValue(call.id);
    writer.WritePropertyName("type");
    writer.WriteValue(call.callType);
    writer.WritePropertyName("function");
    ghost var head := writer.Tokens;
    WriteFunction(writer, call);
    writer.WriteEndObject();
    AppendAssoc(head, FunctionTokens(call), [EndObject]);
  }

  method WriteFunction(writer: JsonWriter, call: ToolCall)
    modifies writer
    ensures writer.Tokens == old(writer.Tokens) + FunctionTokens(call)
  {
    writer.WriteStartObject();
    writer.WritePropertyName("name");
    writer.WriteValue(call.functionName);
    writer.WritePropertyName("arguments");
    writer.WriteValue(call.arguments);
    writer.WriteEndObject();
  }

  method WriteToolCalls(writer: JsonWriter, calls: seq<ToolCall>)
    modifies writer
    ensures writer.Tokens == old(writer.Tokens) + ToolCallsFlat(calls)
  {
    for i := 0 to |calls|
      invariant writer.Tokens == old(writer.Tokens) + ToolCallsFlat(calls[..i])
    {
      WriteToolCall(writer, calls[i]);
      ToolCallsFlatStep(calls, i);
      AppendAssoc(old(writer.Tokens), ToolCallsFlat(calls[..i]), ToolCallTokens(calls[i]));
    }
    WholePrefix(calls);
  }

  method WritePart(writer: JsonWriter, part: ChatMessagePart)
    modifies writer
    ensures writer.Tokens == old(writer.Tokens) + PartTokens(part)
  {
    writer.WriteStartObject();
    writer.WritePropertyName("type");
    writer.WriteValue(Some(PartTypeName(part.partType)));
    ghost var head := writer.Tokens;
    match part.partType {
      case Text =>
        writer.WritePropertyName("text");
        writer.WriteValue(part.text);
      case Image =>
        writer.WritePropertyName("image_url");
        writer.WriteStartObject();
        writer.WritePropertyName("url");
        writer.WriteValue(part.imageUrl);
        writer.WriteEndObject();
      case _ =>
    }
    assert writer.Tokens == head + PartPayload(part);
    writer.WriteEndObject();
  }

  method WriteParts(writer: JsonWriter, parts: seq<ChatMessagePart>)
    modifies writer
    ensures writer.Tokens == old(writer.Tokens) + PartsFlat(parts)
  {
    for i := 0 to |parts|
      invariant writer.Tokens == old(writer.Tokens) + PartsFlat(parts[..i])
    {
      WritePart(writer, parts[i]);
      PartsFlatStep(parts, i);
      AppendAssoc(old(writer.Tokens), PartsFlat(parts[..i]), PartTokens(parts[i]));
    }
    WholePrefix(parts);
  }

  method WriteMessageHead(writer: JsonWriter, msg: ChatMessage)
    modifies writer
    ensures writer.Tokens == old(writer.Tokens) + MessageHead(msg)
  {
    writer.WriteStartObject();
    writer.WritePropertyName("role");
    writer.WriteValue(msg.rawRole);
  }

  /** The id of the call a tool message answers. */
  method WriteToolCallId(writer: JsonWriter, msg: ChatMessage)
    modifies writer
    ensures writer.Tokens == old(writer.Tokens) + ToolIdTokens(msg)
  {
    if msg.role == Some(Tool) {
      writer.WritePropertyName("tool_call_id");
      writer.WriteValue(msg.toolCallId);
    }
  }

  /** The tool calls of an assistant message that has them. */
  method WriteToolCallsProperty(writer: JsonWriter, msg: ChatMessage)
    modifies writer
    ensures writer.Tokens == old(writer.Tokens) + ToolCallsTokens(msg)
  {
    if msg.role == Some(Assistant) && msg.toolCalls.Some? {
      writer.WritePropertyName("tool_calls");
      writer.WriteStartArray();
      assert writer.Tokens == old(writer.Tokens) + [PropertyName("tool_calls"), StartArray];
      WriteToolCalls(writer, msg.toolCalls.value);
      writer.WriteEndArray();
      AppendAssoc3(old(writer.Tokens), [PropertyName("tool_calls"), StartArray], ToolCallsFlat(msg.toolCalls.value), [EndArray]);
    }
  }

  method WriteName(writer: JsonWriter, msg: ChatMessage)
    modifies writer
    ensures writer.Tokens == old(writer.Tokens) + NameTokens(msg)
  {
    if !IsNullOrWhiteSpace(msg.name) {
      writer.WritePropertyName("name");
      writer.WriteValue(msg.name);
    }
  }

  method WriteContent(writer: JsonWriter, msg: ChatMessage)
    modifies writer
    ensures writer.Tokens == old(writer.Tokens) + ContentTokens(msg)
  {
    if !ContentSuppressed(msg) {
      writer.WritePropertyName("content");
      if HasParts(msg) {
        writer.WriteStartArray();
        assert writer.Tokens == old(writer.Tokens) + [PropertyName("content"), StartArray];
        WriteParts(writer, msg.parts.value);
        writer.WriteEndArray();
        AppendAssoc3(old(writer.Tokens), [PropertyName("content"), StartArray], PartsFlat(msg.parts.value), [EndArray]);
      } else {
        writer.WriteValue(msg.content);
      }
    }
  }

  method WriteMessage(writer: JsonWriter, msg: ChatMessage)
    modifies writer
    ensures writer.Tokens == old(writer.Tokens) + MessageTokens(msg)
  {
    WriteMessageHead(writer, msg);
    WriteToolCallId(writer, msg);
    WriteToolCallsProperty(writer, msg);
    WriteName(writer, msg);
    WriteContent(writer, msg);
    writer.WriteEndObject();
    AppendAssoc6(old(writer.Tokens), MessageHead(msg), ToolIdTokens(msg), ToolCallsTokens(msg),
                 NameTokens(msg), ContentTokens(msg), [EndObject]);
  }

  method WriteMessages(writer: JsonWriter, msgs: seq<ChatMessage>)
    modifies writer
    ensures writer.Tokens == old(writer.Tokens) + MessagesFlat(msgs)
  {
    for i := 0 to |msgs|
      invariant writer.Tokens == old(writer.Tokens) + MessagesFlat(msgs[..i])
    {
      WriteMessage(writer, msgs[i]);
      MessagesFlatStep(msgs, i);
      AppendAssoc(old(writer.Tokens), MessagesFlat(msgs[..i]), MessageTokens(msgs[i]));
    }
    WholePrefix(msgs);
  }

  /** `WriteJson`: null, or the array of messages. */
  method WriteJson(writer: JsonWriter, value: Option<seq<ChatMessage>>)
    modifies writer
    ensures writer.Tokens == old(writer.Tokens) + MessagesTokens(value)
  {
    if value.None? {
      writer.WriteNull();
    } else {
      var msgs := value.value;
      writer.WriteStartArray();
      WriteMessages(writer, msgs);
      writer.WriteEndArray();
      AppendAssoc3(old(writer.Tokens), [StartArray], MessagesFlat(msgs), [EndArray]);
    }
  }

  lemma ToolCallsFlatStep(calls: seq<ToolCall>, i: nat)
    requires i < |calls|
    ensures ToolCallsFlat(calls[..i + 1]) == ToolCallsFlat(calls[..i]) + ToolCallTokens(calls[i])
  {
    ToolCallsFlatSnoc(calls[..i], calls[i]);
    assert calls[..i + 1] == calls[..i] + [calls[i]];
  }

  lemma PartsFlatStep(parts: seq<ChatMessagePart>, i: nat)
    requires i < |parts|
    ensures PartsFlat(parts[..i + 1]) == PartsFlat(parts[..i]) + PartTokens(parts[i])
  {
    PartsFlatSnoc(parts[..i], parts[i]);
    assert parts[..i + 1] == parts[..i] + [parts[i]];
  }

  lemma MessagesFlatStep(msgs: seq<ChatMessage>, i: nat)
    requires i < |msgs|
    ensures MessagesFlat(msgs[..i + 1]) == MessagesFlat(msgs[..i]) + MessageTokens(msgs[i])
  {
    MessagesFlatSnoc(msgs[..i], msgs[i]);
    assert msgs[..i + 1] == msgs[..i] + [msgs[i]];
  }

  // Regrouping concatenations, stated over arbitrary sequences so that the
  // proofs above need not look inside the token functions.

  lemma WholePrefix<T>(s: seq<T>)
    ensures s[..|s|] == s
  {
  }

  lemma AppendAssoc<T>(s: seq<T>, a: seq<T>, b: seq<T>)
    ensures s + a + b == s + (a + b)
  {
  }

  lemma AppendAssoc3<T>(s: seq<T>, a: seq<T>, b: seq<T>, c: seq<T>)
    ensures s + a + b + c == s + (a + b + c)
  {
  }

  lemma AppendAssoc6<T>(s: seq<T>, h: seq<T>, a: seq<T>, b: seq<T>, c: seq<T>, d: seq<T>, e: seq<T>)
    ensures s + h + a + b + c + d + e == s + (h + a + b + c + d + e)
  {
  }

  lemma NestRight<T>(h: seq<T>, a: seq<T>, b: seq<T>, c: seq<T>, d: seq<T>, e: seq<T>, r: seq<T>)
    ensures h + a + b + c + d + e + r == h + (a + (b + (c + (d + (e + r)))))
  {
  }

  lemma NestRight3<T>(h: seq<T>, a: seq<T>, b: seq<T>, r: seq<T>)
    ensures h + a + b + r == h + (a + (b + r))
  {
  }

  lemma DropFront<T>(h: seq<T>, x: seq<T>)
    ensures (h + x)[|h|..] == x
  {
  }

  // ---------------------------------------------------------------------------
  // What a reader of the tokens sees.

  datatype ToolCallView = ToolCallView(id: JsonValue, callType: JsonValue, name: JsonValue, arguments: JsonValue)
  datatype PartView = TextPart(text: JsonValue) | ImagePart(url: JsonValue) | BarePart(typeName: string)
  datatype ContentView = NoContent | PlainContent(value: JsonValue) | PartsContent(parts: seq<PartView>)
  datatype MessageView = MessageView(
    role: JsonValue,
    toolCallId: Option<JsonValue>,
    toolCalls: Option<seq<ToolCallView>>,
    name: Option<string>,
    content: ContentView)

  function ToolCallViewOf(c: ToolCall): ToolCallView {
    ToolCallView(JV(c.id), JV(c.callType), JV(c.functionName), JV(c.arguments))
  }

  /** Text parts carry their text, image parts their URL; audio parts and
      parts of any other type carry only their type name. */
  function PartViewOf(p: ChatMessagePart): PartView {
    match p.partType
    case Text => TextPart(JV(p.text))
    case Image => ImagePart(JV(p.imageUrl))
    case _ => BarePart(PartTypeName(p.partType))
  }

  function MapToolCalls(cs: seq<ToolCall>): (r: seq<ToolCallView>)
    ensures |r| == |cs| && forall i | 0 <= i < |cs| :: r[i] == ToolCallViewOf(cs[i])
  {
    seq(|cs|, i requires 0 <= i < |cs| => ToolCallViewOf(cs[i]))
  }

  function MapParts(ps: seq<ChatMessagePart>): (r: seq<PartView>)
    ensures |r| == |ps| && forall i | 0 <= i < |ps| :: r[i] == PartViewOf(ps[i])
  {
    seq(|ps|, i requires 0 <= i < |ps| => PartViewOf(ps[i]))
  }

  /** The message rules of the wire format: the raw role always; the tool call
      id exactly for tool messages; the tool calls exactly for assistant
      messages that have them; the name exactly when it is not null or
      whitespace; no content for suppressed messages, a part array when there
      are parts, and the plain content (possibly null) otherwise. */
  function MessageViewOf(m: ChatMessage): MessageView {
    MessageView(
      JV(m.rawRole),
      if m.role == Some(Tool) then Some(JV(m.toolCallId)) else None,
      if m.role == Some(Assistant) && m.toolCalls.Some? then Some(MapToolCalls(m.toolCalls.value)) else None,
      if !IsNullOrWhiteSpace(m.name) then Some(m.name.value) else None,
      if ContentSuppressed(m) then NoContent
      else if HasParts(m) then PartsContent(MapParts(m.parts.value))
      else PlainContent(JV(m.content)))
  }

  function MessagesViewOf(value: Option<seq<ChatMessage>>): Option<seq<MessageView>> {
    match value
    case None => None
    case Some(ms) => Some(MapMessages(ms))
  }

  /** Reads one tool call object. */
  function ParseToolCall(ts: seq<Token>): (r: Option<(ToolCallView, seq<Token>)>)
    ensures r.Some? ==> |r.value.1| < |ts|
  {
    if |ts| >= 13 && ts[0] == StartObject && ts[1] == PropertyName("id") && ts[2].Value?
       && ts[3] == PropertyName("type") && ts[4].Value? && ts[5] == PropertyName("function") && ts[6] == StartObject
       && ts[7] == PropertyName("name") && ts[8].Value? && ts[9] == PropertyName("arguments") && ts[10].Value?
       && ts[11] == EndObject && ts[12] == EndObject
    then Some((ToolCallView(ts[2].v, ts[4].v, ts[8].v, ts[10].v), ts[13..]))
    else None
  }

  /** Reads tool call objects up to and including the closing bracket. */
  function ParseToolCalls(ts: seq<Token>): Option<(seq<ToolCallView>, seq<Token>)>
    decreases |ts|
  {
    if |ts| >= 1 && ts[0] == EndArray then Some(([], ts[1..]))
    else
      match ParseToolCall(ts)
      case None => None
      case Some((c, rest)) =>
        match ParseToolCalls(rest)
        case None => None
        case Some((cs, rest')) => Some(([c] + cs, rest'))
  }

  /** Reads one part object. */
  function ParsePart(ts: seq<Token>): (r: Option<(PartView, seq<Token>)>)
    ensures r.Some? ==> |r.value.1| < |ts|
  {
    if |ts| >= 4 && ts[0] == StartObject && ts[1] == PropertyName("type") && ts[2].Value? && ts[2].v.JString? then
      var t, rest := ts[2].v.s, ts[3..];
      if t == "text" && |rest| >= 3 && rest[0] == PropertyName("text") && rest[1].Value? && rest[2] == EndObject then
        Some((TextPart(rest[1].v), rest[3..]))
      else if t == "image_url" && |rest| >= 6 && rest[0] == PropertyName("image_url") && rest[1] == StartObject
              && rest[2] == PropertyName("url") && rest[3].Value? && rest[4] == EndObject && rest[5] == EndObject then
        Some((ImagePart(rest[3].v), rest[6..]))
      else if rest[0] == EndObject then Some((BarePart(t), rest[1..]))
      else None
    else None
  }

  function ParseParts(ts: seq<Token>): Option<(seq<PartView>, seq<Token>)>
    decreases |ts|
  {
    if |ts| >= 1 && ts[0] == EndArray then Some(([], ts[1..]))
    else
      match ParsePart(ts)
      case None => None
      case Some((p, rest)) =>
        match ParseParts(rest)
        case None => None
        case Some((ps, rest')) => Some(([p] + ps, rest'))
  }

  /** An optional `"key": value` pair. */
  function ParseOptionalValue(ts: seq<Token>, key: string): (Option<JsonValue>, seq<Token>) {
    if |ts| >= 2 && ts[0] == PropertyName(key) && ts[1].Value? then (Some(ts[1].v), ts[2..]) else (None, ts)
  }

  function ParseOptionalToolCalls(ts: seq<Token>): Option<(Option<seq<ToolCallView>>, seq<Token>)> {
    if |ts| >= 2 && ts[0] == PropertyName("tool_calls") && ts[1] == StartArray then
      match ParseToolCalls(ts[2..])
      case None => None
      case Some((cs, rest)) => Some((Some(cs), rest))
    else Some((None, ts))
  }

  function ParseOptionalName(ts: seq<Token>): (Option<string>, seq<Token>) {
    if |ts| >= 2 && ts[0] == PropertyName("name") && ts[1].Value? && ts[1].v.JString? then (Some(ts[1].v.s), ts[2..]) else (None, ts)
  }

  function ParseContent(ts: seq<Token>): Option<(ContentView, seq<Token>)> {
    if |ts| >= 2 && ts[0] == PropertyName("content") then
      if ts[1] == StartArray then
        match ParseParts(ts[2..])
        case None => None
        case Some((ps, rest)) => Some((PartsContent(ps), rest))
      else if ts[1].Value? then Some((PlainContent(ts[1].v), ts[2..]))
      else None
    else Some((NoContent, ts))
  }

  /** Reads one message object. */
  function ParseMessage(ts: seq<Token>): (r: Option<(MessageView, seq<Token>)>)
    ensures r.Some? ==> |r.value.1| < |ts|
  {
    if |ts| >= 3 && ts[0] == StartObject && ts[1] == PropertyName("role") && ts[2].Value? then
      var (toolCallId, r1) := ParseOptionalValue(ts[3..], "tool_call_id");
      match ParseOptionalToolCalls(r1)
      case None => None
      case Some((calls, r2)) =>
        var (name, r3) := ParseOptionalName(r2);
        match ParseContent(r3)
        case None => None
        case Some((content, r4)) =>
          if |r4| >= 1 && r4[0] == EndObject && |r4| < |ts| then
            Some((MessageView(ts[2].v, toolCallId, calls, name, content), r4[1..]))
          else None
    else None
  }

  function ParseMessages(ts: seq<Token>): Option<(seq<MessageView>, seq<Token>)>
    decreases |ts|
  {
    if |ts| >= 1 && ts[0] == EndArray then Some(([], ts[1..]))
    else
      match ParseMessage(ts)
      case None => None
      case Some((m, rest)) =>
        match ParseMessages(rest)
        case None => None
        case Some((ms, rest')) => Some(([m] + ms, rest'))
  }

  /** Reads the whole "messages" value. */
  function ParseMessagesJson(ts: seq<Token>): Option<Option<seq<MessageView>>> {
    if ts == [Value(JNull)] then Some(None)
    else if |ts| >= 1 && ts[0] == StartArray then
      match ParseMessages(ts[1..])
      case Some((ms, rest)) => if rest == [] then Some(Some(ms)) else None
      case None => None
    else None
  }

  // ---------------------------------------------------------------------------
  // Reading back what was written.

  lemma {:induction false} ToolCallsRoundTrip(cs: seq<ToolCall>, rest: seq<Token>)
    ensures ParseToolCalls(ToolCallsFlat(cs) + ([EndArray] + rest)) == Some((MapToolCalls(cs), rest))
    decreases |cs|
  {
    var ts := ToolCallsFlat(cs) + ([EndArray] + rest);
    if cs == [] {
      assert ts == [EndArray] + rest;
      DropFront([EndArray], rest);
    } else {
      var tail := ToolCallsFlat(cs[1..]) + ([EndArray] + rest);
      AppendAssoc(ToolCallTokens(cs[0]), ToolCallsFlat(cs[1..]), [EndArray] + rest);
      ToolCallRoundTrip(cs[0], tail);
      ToolCallsRoundTrip(cs[1..], rest);
      MapToolCallsCons(cs);
    }
  }

  /** A tool call object reads back as its view, leaving what follows it. */
  lemma ToolCallRoundTrip(c: ToolCall, rest: seq<Token>)
    ensures ParseToolCall(ToolCallTokens(c) + rest) == Some((ToolCallViewOf(c), rest))
    ensures (ToolCallTokens(c) + rest)[0] == StartObject
  {
    DropFront(ToolCallTokens(c), rest);
  }

  lemma MapToolCallsCons(cs: seq<ToolCall>)
    requires cs != []
    ensures MapToolCalls(cs) == [ToolCallViewOf(cs[0])] + MapToolCalls(cs[1..])
  {
  }

  lemma PartRoundTrip(p: ChatMessagePart, rest: seq<Token>)
    ensures ParsePart(PartTokens(p) + rest) == Some((PartViewOf(p), rest))
  {
    var ts := PartTokens(p) + rest;
    var tail := ts[3..];
    assert tail == PartPayload(p) + [EndObject] + rest;
    match p.partType {
      case Text => assert tail[3..] == rest;
      case Image => assert tail[6..] == rest;
      case Audio => assert tail[1..] == rest;
      case OtherType(_) => assert tail[1..] == rest;
    }
  }

  lemma {:induction false} PartsRoundTrip(ps: seq<ChatMessagePart>, rest: seq<Token>)
    ensures ParseParts(PartsFlat(ps) + ([EndArray] + rest)) == Some((MapParts(ps), rest))
    decreases |ps|
  {
    var ts := PartsFlat(ps) + ([EndArray] + rest);
    if ps == [] {
      assert ts == [EndArray] + rest;
      DropFront([EndArray], rest);
    } else {
      var tail := PartsFlat(ps[1..]) + ([EndArray] + rest);
      AppendAssoc(PartTokens(ps[0]), PartsFlat(ps[1..]), [EndArray] + rest);
      assert PartTokens(ps[0])[0] == StartObject;
      PartRoundTrip(ps[0], tail);
      PartsRoundTrip(ps[1..], rest);
      MapPartsCons(ps);
    }
  }

  lemma MapPartsCons(ps: seq<ChatMessagePart>)
    requires ps != []
    ensures MapParts(ps) == [PartViewOf(ps[0])] + MapParts(ps[1..])
  {
  }

  /** The content stage reads back the content view; what follows the
      content is untouched. */
  lemma ContentRoundTrip(m: ChatMessage, rest: seq<Token>)
    requires rest != [] && rest[0] == EndObject
    ensures ParseContent(ContentTokens(m) + rest) == Some((MessageViewOf(m).content, rest))
    ensures (ContentTokens(m) + rest)[0] in {PropertyName("content"), EndObject}
  {
    var ts := ContentTokens(m) + rest;
    if ContentSuppressed(m) {
      assert ts == rest;
    } else if HasParts(m) {
      NestRight3([PropertyName("content"), StartArray], PartsFlat(m.parts.value), [EndArray], rest);
      DropFront([PropertyName("content"), StartArray], PartsFlat(m.parts.value) + ([EndArray] + rest));
      PartsRoundTrip(m.parts.value, rest);
    } else {
      DropFront([PropertyName("content"), Value(JV(m.content))], rest);
    }
  }

  /** The name stage. */
  lemma NameRoundTrip(m: ChatMessage, rest: seq<Token>)
    requires rest != [] && rest[0] in {PropertyName("content"), EndObject}
    ensures ParseOptionalName(NameTokens(m) + rest) == (MessageViewOf(m).name, rest)
    ensures (NameTokens(m) + rest)[0] in {PropertyName("name"), PropertyName("content"), EndObject}
  {
    if !IsNullOrWhiteSpace(m.name) {
      assert (NameTokens(m) + rest)[2..] == rest;
    } else {
      assert NameTokens(m) + rest == rest;
    }
  }

  /** The tool-calls stage. */
  lemma ToolCallsStageRoundTrip(m: ChatMessage, rest: seq<Token>)
    requires rest != [] && rest[0] in {PropertyName("name"), PropertyName("content"), EndObject}
    ensures ParseOptionalToolCalls(ToolCallsTokens(m) + rest) == Some((MessageViewOf(m).toolCalls, rest))
    ensures (ToolCallsTokens(m) + rest)[0] in {PropertyName("tool_calls"), PropertyName("name"), PropertyName("content"), EndObject}
  {
    var ts := ToolCallsTokens(m) + rest;
    if m.role == Some(Assistant) && m.toolCalls.Some? {
      NestRight3([PropertyName("tool_calls"), StartArray], ToolCallsFlat(m.toolCalls.value), [EndArray], rest);
      DropFront([PropertyName("tool_calls"), StartArray], ToolCallsFlat(m.toolCalls.value) + ([EndArray] + rest));
      ToolCallsRoundTrip(m.toolCalls.value, rest);
    } else {
      assert ts == rest;
    }
  }

  /** The tool-call-id stage. */
  lemma ToolIdRoundTrip(m: ChatMessage, rest: seq<Token>)
    requires rest != [] && rest[0] in {PropertyName("tool_calls"), PropertyName("name"), PropertyName("content"), EndObject}
    ensures ParseOptionalValue(ToolIdTokens(m) + rest, "tool_call_id") == (MessageViewOf(m).toolCallId, rest)
  {
    if m.role == Some(Tool) {
      assert (ToolIdTokens(m) + rest)[2..] == rest;
    } else {
      assert ToolIdTokens(m) + rest == rest;
    }
  }

  /** A message object reads back as its view, leaving what follows it. */
  lemma MessageRoundTrip(m: ChatMessage, rest: seq<Token>)
    ensures ParseMessage(MessageTokens(m) + rest) == Some((MessageViewOf(m), rest))
  {
    var x4 := [EndObject] + rest;
    var x3 := ContentTokens(m) + x4;
    var x2 := NameTokens(m) + x3;
    var x1 := ToolCallsTokens(m) + x2;
    var x0 := ToolIdTokens(m) + x1;
    NestRight(MessageHead(m), ToolIdTokens(m), ToolCallsTokens(m), NameTokens(m), ContentTokens(m), [EndObject], rest);
    MessageHeadThen(m, x0);
    ContentRoundTrip(m, x4);
    NameRoundTrip(m, x3);
    ToolCallsStageRoundTrip(m, x2);
    ToolIdRoundTrip(m, x1);
    DropFront([EndObject], rest);
  }

  lemma MessageHeadThen(m: ChatMessage, x: seq<Token>)
    ensures var ts := MessageHead(m) + x;
      |ts| == 3 + |x| && ts[0] == StartObject && ts[1] == PropertyName("role") && ts[2] == Value(JV(m.rawRole)) && ts[3..] == x
  {
  }

  /** The views of a list of messages. */
  function MapMessages(ms: seq<ChatMessage>): (r: seq<MessageView>)
    ensures |r| == |ms| && forall i | 0 <= i < |ms| :: r[i] == MessageViewOf(ms[i])
  {
    seq(|ms|, i requires 0 <= i < |ms| => MessageViewOf(ms[i]))
  }

  lemma MapMessagesCons(ms: seq<ChatMessage>)
    requires ms != []
    ensures MapMessages(ms) == [MessageViewOf(ms[0])] + MapMessages(ms[1..])
  {
  }

  lemma MessagesFlatCons(ms: seq<ChatMessage>, rest: seq<Token>)
    requires ms != []
    ensures MessagesFlat(ms) + rest == MessageTokens(ms[0]) + (MessagesFlat(ms[1..]) + rest)
  {
    AppendAssoc(MessageTokens(ms[0]), MessagesFlat(ms[1..]), rest);
  }

  lemma {:induction false} MessagesRoundTrip(ms: seq<ChatMessage>, rest: seq<Token>)
    ensures ParseMessages(MessagesFlat(ms) + ([EndArray] + rest)) == Some((MapMessages(ms), rest))
    decreases |ms|
  {
    var ts := MessagesFlat(ms) + ([EndArray] + rest);
    if ms == [] {
      assert ts == [EndArray] + rest;
      DropFront([EndArray], rest);
    } else {
      var tail := MessagesFlat(ms[1..]) + ([EndArray] + rest);
      MessagesFlatCons(ms, [EndArray] + rest);
      assert MessageTokens(ms[0])[0] == StartObject;
      MessageRoundTrip(ms[0], tail);
      MessagesRoundTrip(ms[1..], rest);
      MapMessagesCons(ms);
    }
  }

  /** Whatever the messages, reading the converter's output gives back exactly
      what the wire rules say each message contributes. */
  lemma WriteJsonRoundTrip(value: Option<seq<ChatMessage>>)
    ensures ParseMessagesJson(MessagesTokens(value)) == Some(MessagesViewOf(value))
  {
    if value.Some? {
      var ms := value.value;
      var body := MessagesFlat(ms) + [EndArray];
      AppendAssoc([StartArray], MessagesFlat(ms), [EndArray]);
      DropFront([StartArray], body);
      assert [EndArray] + [] == [EndArray];
      MessagesRoundTrip(ms, []);
    }
  }
}
