/**
 The chat-completions format: nullable content, calls whose arguments travel as a
 JSON string. The JSON library is a pair of functions, inverse on what was printed.
 */
module OpenAiWire {
  import opened Prelude
  import opened LlmTypes
  import opened WirePairing

  /** `parse` fails on malformed text. */
  datatype Codec = Codec(stringify: Json -> string, parse: string -> Option<Json>)

  ghost predicate Inverse(codec: Codec) {
    forall j :: codec.parse(codec.stringify(j)) == Some(j)
  }

  /** `arguments` may arrive as a string, as any other value, or not at all. */
  datatype WireCall =
    | FunctionCall(id: string, name: string, arguments: Option<Json>)
    | CustomCall(id: string)

  datatype Param =
    | SystemParam(content: string)
    | UserParam(content: string)
    | AssistantParam(said: Option<string>, toolCalls: Option<seq<WireCall>>)
    | ToolParam(content: string, toolCallId: string)

  /** The first choice of a completion. */
  datatype Completion = Completion(
    content: Option<string>,
    toolCalls: Option<seq<WireCall>>,
    finishReason: Option<string>,
    promptTokens: Option<nat>,
    completionTokens: Option<nat>)

  function EncodeCalls(codec: Codec, calls: seq<ToolCall>): seq<WireCall> {
    if calls == [] then []
    else
      [FunctionCall(calls[0].id, calls[0].name, Some(JString(codec.stringify(calls[0].arguments))))]
      + EncodeCalls(codec, calls[1..])
  }

  function Encode(codec: Codec, m: ChatMessage): Param {
    match m.role
    case User => UserParam(m.content)
    case Assistant =>
      AssistantParam(if m.content == "" then None else Some(m.content),
                     if CallsOf(m) == [] then None else Some(EncodeCalls(codec, CallsOf(m))))
    case ToolRole => ToolParam(m.content, m.toolCallId.GetOr(""))
  }

  function EncodeAll(codec: Codec, messages: seq<ChatMessage>): seq<Param> {
    if messages == [] then [] else [Encode(codec, messages[0])] + EncodeAll(codec, messages[1..])
  }

  lemma {:induction false} EncodeAllAppend(codec: Codec, messages: seq<ChatMessage>, m: ChatMessage)
    ensures EncodeAll(codec, messages + [m]) == EncodeAll(codec, messages) + [Encode(codec, m)]
  {
    if messages == [] {
      assert [] + [m] == [m] && [m][1..] == [];
    } else {
      assert (messages + [m])[1..] == messages[1..] + [m];
      EncodeAllAppend(codec, messages[1..], m);
    }
  }

  function SystemPart(system: string): seq<Param> {
    if system == "" then [] else [SystemParam(system)]
  }

  method ToOpenAiMessages(codec: Codec, request: LlmRequest) returns (params: seq<Param>)
    ensures params == SystemPart(request.system) + EncodeAll(codec, request.messages)
  {
    params := [];
    if request.system != "" {
      params := params + [SystemParam(request.system)];
    }
    for i := 0 to |request.messages|
      invariant params == SystemPart(request.system) + EncodeAll(codec, request.messages[..i])
    {
      EncodeAllAppend(codec, request.messages[..i], request.messages[i]);
      assert request.messages[..i + 1] == request.messages[..i] + [request.messages[i]];
      params := params + [Encode(codec, request.messages[i])];
    }
    assert request.messages[..|request.messages|] == request.messages;
  }

  predicate Structured(j: Json) {
    j.JObject? || j.JArray?
  }

  /** Objects and arrays are kept, other parsed values are wrapped, malformed text
      degrades to an empty object; what is not a string is passed through. */
  function ParseArguments(codec: Codec, raw: Option<Json>): Json {
    match raw
    case None => JObject(map[])
    case Some(JNull) => JObject(map[])
    case Some(JString(s)) =>
      (match codec.parse(s)
       case None => JObject(map[])
       case Some(parsed) => if Structured(parsed) then parsed else JObject(map["value" := parsed]))
    case Some(other) => other
  }

  function DecodeCalls(codec: Codec, calls: seq<WireCall>): seq<ToolCall> {
    if calls == [] then []
    else
      (if calls[0].FunctionCall? then [ToolCall(calls[0].id, calls[0].name, ParseArguments(codec, calls[0].arguments))]
          else [])
      + DecodeCalls(codec, calls[1..])
  }

  function Decode(codec: Codec, content: Option<string>, toolCalls: Option<seq<WireCall>>): (string, seq<ToolCall>) {
    (content.GetOr(""), DecodeCalls(codec, toolCalls.GetOr([])))
  }

  function MapFinishReason(finishReason: Option<string>): StopReason {
    if finishReason == Some("stop") then EndTurn
    else if finishReason == Some("tool_calls") then ToolUse
    else if finishReason == Some("length") then MaxTokens
    else StopSequence
  }

  function Complete(codec: Codec, c: Completion): LlmResponse {
    var (content, calls) := Decode(codec, c.content, c.toolCalls);
    LlmResponse(content, calls, MapFinishReason(c.finishReason),
                Usage(c.promptTokens.GetOr(0), c.completionTokens.GetOr(0)))
  }

  // ------------------------------------------------------------ round trip

  lemma {:induction false} DecodeEncodedCalls(codec: Codec, calls: seq<ToolCall>)
    requires Inverse(codec)
    ensures var decoded := DecodeCalls(codec, EncodeCalls(codec, calls));
      && |decoded| == |calls|
      && forall i :: 0 <= i < |calls| ==>
           && decoded[i].id == calls[i].id && decoded[i].name == calls[i].name
           && Structured(decoded[i].arguments)
           && (decoded[i].arguments == calls[i].arguments <==> Structured(calls[i].arguments))
  {
    if calls != [] {
      DecodeEncodedCalls(codec, calls[1..]);
      assert EncodeCalls(codec, calls)[1..] == EncodeCalls(codec, calls[1..]);
    }
  }

  /** Decoding an encoded assistant message gives back its content and its calls,
      in order, exactly when all arguments are objects or arrays. */
  lemma RoundTripExactly(codec: Codec, m: ChatMessage)
    requires Inverse(codec) && m.role == Assistant
    ensures var p := Encode(codec, m);
      var (content, calls) := Decode(codec, p.said, p.toolCalls);
      && content == m.content
      && CallIds(calls) == CallIds(CallsOf(m))
      && (forall c :: c in calls ==> Structured(c.arguments))
      && (calls == CallsOf(m) <==> forall c :: c in CallsOf(m) ==> Structured(c.arguments))
  {
    var calls := CallsOf(m);
    DecodeEncodedCalls(codec, calls);
    var decoded := DecodeCalls(codec, EncodeCalls(codec, calls));
    SameIds(decoded, calls);
    if decoded == calls {
      forall c | c in calls ensures Structured(c.arguments) {
        var i :| 0 <= i < |calls| && calls[i] == c;
        assert decoded[i] == c;
      }
    }
  }

  /** What the history keeps of a completion's message, on the wire again. */
  function Reencode(codec: Codec, content: Option<string>, toolCalls: Option<seq<WireCall>>): Param {
    var (text, calls) := Decode(codec, content, toolCalls);
    Encode(codec, AssistantMessage(text, calls))
  }

  /** Arguments that arrive as a bare boolean or number instead of text. */
  predicate BareScalar(c: WireCall) {
    c.FunctionCall? && c.arguments.Some? && (c.arguments.value.JBool? || c.arguments.value.JNumber?)
  }

  lemma {:induction false} DecodedStructuredExactly(codec: Codec, calls: seq<WireCall>)
    ensures (forall c :: c in DecodeCalls(codec, calls) ==> Structured(c.arguments))
        <==> (forall c :: c in calls ==> !BareScalar(c))
  {
    if calls != [] {
      DecodedStructuredExactly(codec, calls[1..]);
      var first := calls[0];
      var head := if first.FunctionCall? then [ToolCall(first.id, first.name, ParseArguments(codec, first.arguments))]
          else [];
      assert DecodeCalls(codec, calls) == head + DecodeCalls(codec, calls[1..]);
      assert forall c :: c in calls <==> c == calls[0] || c in calls[1..];
      assert calls[0].FunctionCall? ==> head[0] in head;
      assert (forall c :: c in head ==> Structured(c.arguments)) <==> !BareScalar(calls[0]);
    }
  }

  lemma {:induction false} EncodeCallsInjective(codec: Codec, a: seq<ToolCall>, b: seq<ToolCall>)
    requires Inverse(codec) && EncodeCalls(codec, a) == EncodeCalls(codec, b)
    ensures a == b
  {
    EncodeCallsLength(codec, a);
    EncodeCallsLength(codec, b);
    if a != [] {
      var ea, eb := EncodeCalls(codec, a), EncodeCalls(codec, b);
      assert ea[0] == eb[0] && ea[1..] == eb[1..];
      assert codec.parse(codec.stringify(a[0].arguments)) == Some(a[0].arguments);
      assert codec.parse(codec.stringify(b[0].arguments)) == Some(b[0].arguments);
      assert ea[1..] == EncodeCalls(codec, a[1..]) && eb[1..] == EncodeCalls(codec, b[1..]);
      EncodeCallsInjective(codec, a[1..], b[1..]);
      assert a == [a[0]] + a[1..] && b == [b[0]] + b[1..];
    }
  }

  lemma {:induction false} EncodeCallsLength(codec: Codec, calls: seq<ToolCall>)
    ensures |EncodeCalls(codec, calls)| == |calls|
  {
    if calls != [] {
      EncodeCallsLength(codec, calls[1..]);
    }
  }

  /** Re-encoding loses nothing the loop can see, and is idempotent, exactly when no
      call's arguments arrive as a bare boolean or number; those get wrapped once. */
  lemma ReencodeIsNormalFormExactly(codec: Codec, content: Option<string>, toolCalls: Option<seq<WireCall>>)
    requires Inverse(codec)
    ensures var p := Reencode(codec, content, toolCalls);
      var plain := forall c :: c in toolCalls.GetOr([]) ==> !BareScalar(c);
      && (Decode(codec, p.said, p.toolCalls) == Decode(codec, content, toolCalls) <==> plain)
      && (Reencode(codec, p.said, p.toolCalls) == p <==> plain)
  {
    var (text, calls) := Decode(codec, content, toolCalls);
    var p := Reencode(codec, content, toolCalls);
    var again := Decode(codec, p.said, p.toolCalls);
    DecodedStructuredExactly(codec, toolCalls.GetOr([]));
    RoundTripExactly(codec, AssistantMessage(text, calls));
    if Reencode(codec, p.said, p.toolCalls) == p && calls != [] {
      DecodeEncodedCalls(codec, calls);
      EncodeCallsInjective(codec, again.1, calls);
    }
  }

  lemma {:induction false} HasCallsExactly(codec: Codec, calls: seq<WireCall>)
    ensures DecodeCalls(codec, calls) != [] <==> exists c :: c in calls && c.FunctionCall?
  {
    if calls != [] {
      HasCallsExactly(codec, calls[1..]);
      assert forall c :: c in calls <==> c == calls[0] || c in calls[1..];
    }
  }

  /** The loop runs tools on a completion exactly when it finished for tool calls
      and carries a function call. */
  lemma BatchExactly(codec: Codec, c: Completion)
    ensures var r := Complete(codec, c);
      && (r.stopReason == ToolUse && r.toolCalls != [] <==>
            c.finishReason == Some("tool_calls") && exists call :: call in c.toolCalls.GetOr([]) && call.FunctionCall?)
      && r.stopReason != MaxIterations && r.stopReason != Error
  {
    HasCallsExactly(codec, c.toolCalls.GetOr([]));
  }

  /** What becomes of arguments: printed objects and arrays come back, other printed
      values come back under one key, malformed text and nothing become an empty
      object, and a value that is no text is passed through. */
  lemma ArgumentsExactly(codec: Codec, j: Json, text: string)
    requires Inverse(codec)
    ensures Structured(j) ==> ParseArguments(codec, Some(JString(codec.stringify(j)))) == j
    ensures !Structured(j) ==>
      var parsed := ParseArguments(codec, Some(JString(codec.stringify(j))));
      parsed.JObject? && parsed.fields.Keys == {"value"} && parsed.fields["value"] == j
    ensures codec.parse(text).None? ==>
      ParseArguments(codec, Some(JString(text))).JObject? && ParseArguments(codec, Some(JString(text))).fields == map[]
    ensures ParseArguments(codec, None).JObject? && ParseArguments(codec, None).fields == map[]
    ensures !j.JString? && !j.JNull? ==> ParseArguments(codec, Some(j)) == j
  {
    assert codec.parse(codec.stringify(j)) == Some(j);
  }

  /** What each finish reason means, on both sides, and the usage of a completion. */
  lemma FinishReasonsExactly(codec: Codec, c: Completion)
    ensures var r := Complete(codec, c);
      && (r.stopReason == EndTurn <==> c.finishReason == Some("stop"))
      && (r.stopReason == ToolUse <==> c.finishReason == Some("tool_calls"))
      && (r.stopReason == MaxTokens <==> c.finishReason == Some("length"))
      && r.stopReason in {EndTurn, ToolUse, MaxTokens, StopSequence}
      && (c.promptTokens.Some? ==> r.usage.inputTokens == c.promptTokens.value)
      && (c.completionTokens.Some? ==> r.usage.outputTokens == c.completionTokens.value)
      && (c.promptTokens.None? && c.completionTokens.None? ==> r.usage.Total() == 0)
  {
    assert |"tool_calls"| > |"length"| > |"stop"|;
  }

  // --------------------------------------------------------------- reading

  /** A reader of wire messages, written apart from the encoding; a system message is none of the history's. */
  function Read(p: Param): seq<Seen> {
    match p
    case SystemParam(_) => []
    case UserParam(content) => [Seen(User, content, None)]
    case AssistantParam(said, _) => [Seen(Assistant, said.GetOr(""), None)]
    case ToolParam(content, id) => [Seen(ToolRole, content, Some(id))]
  }

  function ReadAll(params: seq<Param>): seq<Seen> {
    if params == [] then [] else Read(params[0]) + ReadAll(params[1..])
  }

  /** The system text of a request on the wire. */
  function ReadSystem(params: seq<Param>): string {
    if params != [] && params[0].SystemParam? then params[0].content else ""
  }

  lemma {:induction false} EncodedIsRead(codec: Codec, messages: seq<ChatMessage>)
    ensures ReadAll(EncodeAll(codec, messages)) == SeenIn(messages)
    ensures ReadSystem(EncodeAll(codec, messages)) == ""
  {
    if messages != [] {
      EncodedIsRead(codec, messages[1..]);
      assert EncodeAll(codec, messages)[1..] == EncodeAll(codec, messages[1..]);
    }
  }

  /** Whoever reads an encoded request sees its system text and every message: whose
      it is, its whole text, and which call it answers. */
  lemma RequestIsRead(codec: Codec, request: LlmRequest)
    ensures var params := SystemPart(request.system) + EncodeAll(codec, request.messages);
      ReadSystem(params) == request.system && ReadAll(params) == SeenIn(request.messages)
  {
    EncodedIsRead(codec, request.messages);
    var rest := EncodeAll(codec, request.messages);
    assert [] + rest == rest;
    assert ([SystemParam(request.system)] + rest)[1..] == rest;
  }

  // --------------------------------------------------------------- pairing

  function WireIds(calls: seq<WireCall>): seq<string> {
    if calls == [] then [] else [calls[0].id] + WireIds(calls[1..])
  }

  function ParamPairs(p: Param): Pairs {
    match p
    case AssistantParam(_, toolCalls) => Pairs(WireIds(toolCalls.GetOr([])), [])
    case ToolParam(_, id) => Pairs([], [id])
    case _ => Pairs([], [])
  }

  function WirePairs(params: seq<Param>): Pairs {
    if params == [] then Pairs([], []) else ParamPairs(params[0]).Then(WirePairs(params[1..]))
  }

  lemma {:induction false} WireIdsOfCalls(codec: Codec, calls: seq<ToolCall>)
    ensures WireIds(EncodeCalls(codec, calls)) == CallIds(calls)
  {
    if calls != [] {
      WireIdsOfCalls(codec, calls[1..]);
      assert EncodeCalls(codec, calls)[1..] == EncodeCalls(codec, calls[1..]);
    }
  }

  lemma {:induction false} EncodeAllKeepsPairs(codec: Codec, messages: seq<ChatMessage>)
    ensures WirePairs(EncodeAll(codec, messages)) == HistoryPairs(messages)
  {
    if messages != [] {
      EncodeAllKeepsPairs(codec, messages[1..]);
      assert EncodeAll(codec, messages)[1..] == EncodeAll(codec, messages[1..]);
      WireIdsOfCalls(codec, CallsOf(messages[0]));
      assert ParamPairs(Encode(codec, messages[0])) == PairsOf(messages[0]);
    }
  }

  /** A request on the wire, system message included, has the ordered call and answer ids of its history. */
  lemma EncodingKeepsPairs(codec: Codec, request: LlmRequest)
    ensures WirePairs(SystemPart(request.system) + EncodeAll(codec, request.messages)) == HistoryPairs(request.messages)
  {
    EncodeAllKeepsPairs(codec, request.messages);
    var rest := EncodeAll(codec, request.messages);
    assert [] + rest == rest;
    assert ([SystemParam(request.system)] + rest)[1..] == rest;
  }
}
