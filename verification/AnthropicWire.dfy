/**
 The Anthropic message format: content blocks. Encoding a message of the history,
 decoding a completion.
 */
module AnthropicWire {
  import opened Prelude
  import opened LlmTypes
  import opened WirePairing

  datatype Block =
    | TextBlock(text: string)
    | ToolUseBlock(id: string, name: string, input: Json)
    | OtherBlock(kind: string)

  datatype Param =
    | UserParam(content: string)
    | ToolResultParam(toolUseId: string, content: string)
    | AssistantParam(blocks: seq<Block>)

  datatype Completion = Completion(content: seq<Block>, stopReason: Option<string>, usage: Usage)

  function ToolUses(calls: seq<ToolCall>): seq<Block> {
    if calls == [] then []
    else [ToolUseBlock(calls[0].id, calls[0].name, calls[0].arguments)] + ToolUses(calls[1..])
  }

  function TextOf(content: string): seq<Block> {
    if content == "" then [] else [TextBlock(content)]
  }

  function Encode(m: ChatMessage): Param {
    match m.role
    case ToolRole => ToolResultParam(m.toolCallId.GetOr(""), m.content)
    case Assistant => AssistantParam(TextOf(m.content) + ToolUses(CallsOf(m)))
    case User => UserParam(m.content)
  }

  lemma {:induction false} ToolUsesAppend(calls: seq<ToolCall>, call: ToolCall)
    ensures ToolUses(calls + [call]) == ToolUses(calls) + [ToolUseBlock(call.id, call.name, call.arguments)]
  {
    if calls == [] {
      assert [] + [call] == [call] && [call][1..] == [];
    } else {
      assert (calls + [call])[1..] == calls[1..] + [call];
      ToolUsesAppend(calls[1..], call);
    }
  }

  method ToAnthropicMessage(m: ChatMessage) returns (p: Param)
    ensures p == Encode(m)
  {
    match m.role {
      case ToolRole =>
        p := ToolResultParam(m.toolCallId.GetOr(""), m.content);
      case Assistant =>
        var blocks: seq<Block> := [];
        if m.content != "" {
          blocks := blocks + [TextBlock(m.content)];
        }
        var calls := m.toolCalls.GetOr([]);
        for i := 0 to |calls|
          invariant blocks == TextOf(m.content) + ToolUses(calls[..i])
        {
          ToolUsesAppend(calls[..i], calls[i]);
          assert calls[..i + 1] == calls[..i] + [calls[i]];
          blocks := blocks + [ToolUseBlock(calls[i].id, calls[i].name, calls[i].arguments)];
        }
        assert calls[..|calls|] == calls;
        p := AssistantParam(blocks);
      case User =>
        p := UserParam(m.content);
    }
  }

  function Texts(blocks: seq<Block>): seq<string> {
    if blocks == [] then []
    else (if blocks[0].TextBlock? then [blocks[0].text] else []) + Texts(blocks[1..])
  }

  function JoinLines(parts: seq<string>): string {
    if parts == [] then "" else if |parts| == 1 then parts[0] else parts[0] + "\n" + JoinLines(parts[1..])
  }

  function InputOf(input: Json): Json {
    if input == JNull then JObject(map[]) else input
  }

  function DecodeCalls(blocks: seq<Block>): seq<ToolCall> {
    if blocks == [] then []
    else
      (if blocks[0].ToolUseBlock? then [ToolCall(blocks[0].id, blocks[0].name, InputOf(blocks[0].input))] else [])
      + DecodeCalls(blocks[1..])
  }

  function DecodeText(blocks: seq<Block>): string {
    JoinLines(Texts(blocks))
  }

  function MapStopReason(stopReason: Option<string>): StopReason {
    if stopReason == Some("end_turn") then EndTurn
    else if stopReason == Some("tool_use") then ToolUse
    else if stopReason == Some("max_tokens") then MaxTokens
    else if stopReason == Some("stop_sequence") then StopSequence
    else Error
  }

  function Complete(message: Completion): LlmResponse {
    LlmResponse(DecodeText(message.content), DecodeCalls(message.content), MapStopReason(message.stopReason),
                message.usage)
  }

  // ------------------------------------------------------------ round trip

  lemma {:induction false} DecodeToolUses(calls: seq<ToolCall>)
    ensures Texts(ToolUses(calls)) == []
    ensures |DecodeCalls(ToolUses(calls))| == |calls|
    ensures forall i :: 0 <= i < |calls| ==>
      DecodeCalls(ToolUses(calls))[i] == calls[i].(arguments := InputOf(calls[i].arguments))
  {
    if calls != [] {
      DecodeToolUses(calls[1..]);
      var uses := ToolUses(calls);
      assert uses[1..] == ToolUses(calls[1..]);
    }
  }

  lemma DecodeEncoded(content: string, calls: seq<ToolCall>)
    ensures var blocks := TextOf(content) + ToolUses(calls);
      && DecodeText(blocks) == content
      && DecodeCalls(blocks) == DecodeCalls(ToolUses(calls))
  {
    DecodeToolUses(calls);
    var blocks := TextOf(content) + ToolUses(calls);
    if content == "" {
      assert blocks == ToolUses(calls);
    } else {
      assert blocks[1..] == ToolUses(calls);
      assert Texts(blocks) == [content];
    }
  }

  /** Decoding an encoded assistant message gives back its content and its calls,
      in order, exactly when no call has null arguments (those come back as an
      empty object). */
  lemma RoundTripExactly(m: ChatMessage)
    requires m.role == Assistant
    ensures var blocks := Encode(m).blocks;
      && DecodeText(blocks) == m.content
      && CallIds(DecodeCalls(blocks)) == CallIds(CallsOf(m))
      && (DecodeCalls(blocks) == CallsOf(m) <==> forall c :: c in CallsOf(m) ==> c.arguments != JNull)
  {
    var calls := CallsOf(m);
    DecodeEncoded(m.content, calls);
    DecodeToolUses(calls);
    var decoded := DecodeCalls(Encode(m).blocks);
    SameIds(decoded, calls);
    if decoded == calls {
      forall c | c in calls ensures c.arguments != JNull {
        var i :| 0 <= i < |calls| && calls[i] == c;
        assert decoded[i] == c;
      }
    }
  }

  /** What the history keeps of a completion, on the wire again. */
  function Reencode(blocks: seq<Block>): seq<Block> {
    Encode(AssistantMessage(DecodeText(blocks), DecodeCalls(blocks))).blocks
  }

  /** At most one text block, not empty and before all else; then only tool uses, with input. */
  predicate Normal(blocks: seq<Block>) {
    forall i :: 0 <= i < |blocks| ==>
      match blocks[i]
      case TextBlock(text) => i == 0 && text != ""
      case ToolUseBlock(_, _, input) => input != JNull
      case OtherBlock(_) => false
  }

  lemma {:induction false} DecodedHaveInput(blocks: seq<Block>)
    ensures forall c :: c in DecodeCalls(blocks) ==> c.arguments != JNull
  {
    if blocks != [] {
      DecodedHaveInput(blocks[1..]);
    }
  }

  lemma {:induction false} ToolUsesOfNormal(blocks: seq<Block>)
    requires forall b :: b in blocks ==> b.ToolUseBlock? && b.input != JNull
    ensures ToolUses(DecodeCalls(blocks)) == blocks && Texts(blocks) == []
  {
    if blocks != [] {
      assert blocks[0] in blocks;
      assert forall b :: b in blocks[1..] ==> b in blocks;
      ToolUsesOfNormal(blocks[1..]);
      assert blocks == [blocks[0]] + blocks[1..];
      assert DecodeCalls(blocks)[1..] == DecodeCalls(blocks[1..]);
    }
  }

  lemma {:induction false} ToolUsesAt(calls: seq<ToolCall>)
    ensures |ToolUses(calls)| == |calls|
    ensures forall i :: 0 <= i < |calls| ==>
      ToolUses(calls)[i] == ToolUseBlock(calls[i].id, calls[i].name, calls[i].arguments)
  {
    if calls != [] {
      ToolUsesAt(calls[1..]);
    }
  }

  /** Re-encoding a completion loses nothing the loop can see, gives a normal form,
      and changes exactly the completions that are not in normal form. */
  lemma ReencodeIsNormalForm(blocks: seq<Block>)
    ensures DecodeText(Reencode(blocks)) == DecodeText(blocks)
    ensures DecodeCalls(Reencode(blocks)) == DecodeCalls(blocks)
    ensures Reencode(Reencode(blocks)) == Reencode(blocks)
    ensures Reencode(blocks) == blocks <==> Normal(blocks)
  {
    DecodedHaveInput(blocks);
    RoundTripExactly(AssistantMessage(DecodeText(blocks), DecodeCalls(blocks)));
    var calls, text := DecodeCalls(blocks), TextOf(DecodeText(blocks));
    ToolUsesAt(calls);
    assert Normal(Reencode(blocks)) by {
      forall i | 0 <= i < |Reencode(blocks)| ensures
        match Reencode(blocks)[i]
        case TextBlock(t) => i == 0 && t != ""
        case ToolUseBlock(_, _, input) => input != JNull
        case OtherBlock(_) => false
      {
        if i >= |text| {
          assert calls[i - |text|] in calls;
        }
      }
    }
    if Normal(blocks) {
      if blocks != [] && blocks[0].TextBlock? {
        ToolUsesOfNormal(blocks[1..]);
        assert Texts(blocks) == [blocks[0].text] + Texts(blocks[1..]);
        assert blocks == [blocks[0]] + blocks[1..];
        assert DecodeCalls(blocks) == [] + DecodeCalls(blocks[1..]);
        assert DecodeCalls(blocks) == DecodeCalls(blocks[1..]);
      } else {
        ToolUsesOfNormal(blocks);
        assert [] + blocks == blocks;
      }
    }
  }

  /** The loop runs tools on a completion exactly when the wire says so and carries a tool use. */
  lemma {:induction false} HasCallsExactly(blocks: seq<Block>)
    ensures DecodeCalls(blocks) != [] <==> exists b :: b in blocks && b.ToolUseBlock?
  {
    if blocks != [] {
      HasCallsExactly(blocks[1..]);
      assert forall b :: b in blocks <==> b == blocks[0] || b in blocks[1..];
    }
  }

  lemma BatchExactly(message: Completion)
    ensures var r := Complete(message);
      && (r.stopReason == ToolUse && r.toolCalls != [] <==>
            message.stopReason == Some("tool_use") && exists b :: b in message.content && b.ToolUseBlock?)
      && r.stopReason != MaxIterations
  {
    HasCallsExactly(message.content);
  }

  /** Decoding is blockwise: calls in order, texts joined by a line break. */
  lemma DecodeConcat(a: seq<Block>, b: seq<Block>)
    ensures DecodeCalls(a + b) == DecodeCalls(a) + DecodeCalls(b)
    ensures DecodeText(a + b) == if Texts(a) == [] then DecodeText(b) else if Texts(b) == [] then DecodeText(a)
                                 else DecodeText(a) + "\n" + DecodeText(b)
  {
    CallsConcat(a, b);
    TextsConcat(a, b);
    JoinConcat(Texts(a), Texts(b));
  }

  lemma {:induction false} CallsConcat(a: seq<Block>, b: seq<Block>)
    ensures DecodeCalls(a + b) == DecodeCalls(a) + DecodeCalls(b)
  {
    if a == [] {
      assert a + b == b;
    } else {
      HeadOfSum(a, b);
      CallsConcat(a[1..], b);
      var first := a[0];
      var call := if first.ToolUseBlock? then [ToolCall(first.id, first.name, InputOf(first.input))] else [];
      Associative(call, DecodeCalls(a[1..]), DecodeCalls(b));
    }
  }

  lemma {:induction false} TextsConcat(a: seq<Block>, b: seq<Block>)
    ensures Texts(a + b) == Texts(a) + Texts(b)
  {
    if a == [] {
      assert a + b == b;
    } else {
      HeadOfSum(a, b);
      TextsConcat(a[1..], b);
      Associative(if a[0].TextBlock? then [a[0].text] else [], Texts(a[1..]), Texts(b));
    }
  }

  lemma {:induction false} JoinConcat(a: seq<string>, b: seq<string>)
    ensures JoinLines(a + b) == if a == [] then JoinLines(b) else if b == [] then JoinLines(a)
                                else JoinLines(a) + "\n" + JoinLines(b)
  {
    if a == [] {
      assert a + b == b;
    } else if b == [] {
      assert a + b == a;
    } else {
      HeadOfSum(a, b);
      if |a| == 1 {
        assert a[1..] + b == b;
      } else {
        JoinConcat(a[1..], b);
      }
    }
  }

  /** What each stop reason means, on both sides. */
  lemma StopReasonsExactly(message: Completion)
    ensures var reason := Complete(message).stopReason;
      && (reason == EndTurn <==> message.stopReason == Some("end_turn"))
      && (reason == ToolUse <==> message.stopReason == Some("tool_use"))
      && (reason == MaxTokens <==> message.stopReason == Some("max_tokens"))
      && (reason == StopSequence <==> message.stopReason == Some("stop_sequence"))
      && reason != MaxIterations && Complete(message).usage == message.usage
  {
    assert "end_turn"[0] != "tool_use"[0] && |"tool_use"| != |"max_tokens"| && |"end_turn"| != |"max_tokens"|;
    assert |"stop_sequence"| > |"max_tokens"| > |"end_turn"|;
  }

  // --------------------------------------------------------------- reading

  /** A reader of wire messages, written apart from the encoding. */
  function Read(p: Param): Seen {
    match p
    case UserParam(content) => Seen(User, content, None)
    case ToolResultParam(id, content) => Seen(ToolRole, content, Some(id))
    case AssistantParam(blocks) => Seen(Assistant, DecodeText(blocks), None)
  }

  function ReadAll(params: seq<Param>): seq<Seen> {
    if params == [] then [] else [Read(params[0])] + ReadAll(params[1..])
  }

  /** Whoever reads an encoded history sees every message: whose it is, its whole
      text, and which call it answers. */
  lemma {:induction false} HistoryIsRead(messages: seq<ChatMessage>)
    ensures ReadAll(EncodeAll(messages)) == SeenIn(messages)
  {
    if messages != [] {
      var m := messages[0];
      HistoryIsRead(messages[1..]);
      if m.role == Assistant {
        RoundTripExactly(m);
      }
      assert EncodeAll(messages)[1..] == EncodeAll(messages[1..]);
    }
  }

  // --------------------------------------------------------------- pairing

  function BlockIds(blocks: seq<Block>): seq<string> {
    if blocks == [] then []
    else (if blocks[0].ToolUseBlock? then [blocks[0].id] else []) + BlockIds(blocks[1..])
  }

  function ParamPairs(p: Param): Pairs {
    match p
    case UserParam(_) => Pairs([], [])
    case ToolResultParam(id, _) => Pairs([], [id])
    case AssistantParam(blocks) => Pairs(BlockIds(blocks), [])
  }

  function EncodeAll(messages: seq<ChatMessage>): seq<Param> {
    if messages == [] then [] else [Encode(messages[0])] + EncodeAll(messages[1..])
  }

  function WirePairs(params: seq<Param>): Pairs {
    if params == [] then Pairs([], []) else ParamPairs(params[0]).Then(WirePairs(params[1..]))
  }

  lemma {:induction false} BlockIdsOfToolUses(calls: seq<ToolCall>)
    ensures BlockIds(ToolUses(calls)) == CallIds(calls)
  {
    if calls != [] {
      BlockIdsOfToolUses(calls[1..]);
      assert ToolUses(calls)[1..] == ToolUses(calls[1..]);
    }
  }

  /** Encoding a history keeps the ordered ids of its calls and of its answers. */
  lemma {:induction false} EncodingKeepsPairs(messages: seq<ChatMessage>)
    ensures WirePairs(EncodeAll(messages)) == HistoryPairs(messages)
  {
    if messages != [] {
      EncodingKeepsPairs(messages[1..]);
      var m := messages[0];
      assert EncodeAll(messages)[1..] == EncodeAll(messages[1..]);
      if m.role == Assistant {
        BlockIdsOfToolUses(CallsOf(m));
        var uses := ToolUses(CallsOf(m));
        assert m.content == "" ==> [] + uses == uses;
        assert m.content != "" ==> ([TextBlock(m.content)] + uses)[1..] == uses;
      }
      assert ParamPairs(Encode(m)) == PairsOf(m);
    }
  }
}
