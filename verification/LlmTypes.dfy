/**
 The provider-agnostic message shapes, and the calls of a history that still
 wait for an answer. Nothing stores that set: it is recomputed from the history.
 */
module LlmTypes {
  import opened Prelude

  datatype Json =
    | JNull
    | JBool(b: bool)
    | JNumber(n: real)
    | JString(s: string)
    | JArray(items: seq<Json>)
    | JObject(fields: map<string, Json>)

  /** `arguments` is typed as an object by the source, but reaches it through a
      cast, so any JSON value is possible. */
  datatype ToolCall = ToolCall(id: string, name: string, arguments: Json)

  datatype Role = User | Assistant | ToolRole

  datatype ChatMessage = ChatMessage(
    role: Role,
    content: string,
    toolCalls: Option<seq<ToolCall>>,
    toolCallId: Option<string>)

  datatype StopReason = EndTurn | ToolUse | MaxTokens | StopSequence | Error | MaxIterations

  datatype Usage = Usage(inputTokens: nat, outputTokens: nat) {
    function Total(): nat { inputTokens + outputTokens }
  }

  datatype ToolDefinition = ToolDefinition(name: string, description: string)

  datatype LlmRequest = LlmRequest(system: string, messages: seq<ChatMessage>, tools: seq<ToolDefinition>)

  datatype LlmResponse = LlmResponse(content: string, toolCalls: seq<ToolCall>, stopReason: StopReason, usage: Usage)

  function UserMessage(content: string): ChatMessage {
    ChatMessage(User, content, None, None)
  }

  function AssistantMessage(content: string, calls: seq<ToolCall>): ChatMessage {
    ChatMessage(Assistant, content, Some(calls), None)
  }

  function ToolMessage(content: string, callId: string): ChatMessage {
    ChatMessage(ToolRole, content, None, Some(callId))
  }

  function CallsOf(m: ChatMessage): seq<ToolCall> {
    if m.role == Assistant then m.toolCalls.GetOr([]) else []
  }

  function Calls(messages: seq<ChatMessage>): seq<ToolCall> {
    if messages == [] then [] else CallsOf(messages[0]) + Calls(messages[1..])
  }

  function Answered(messages: seq<ChatMessage>): set<string> {
    set m | m in messages && m.role == ToolRole && m.toolCallId.Some? :: m.toolCallId.value
  }

  function Unanswered(calls: seq<ToolCall>, answered: set<string>): seq<ToolCall> {
    if calls == [] then []
    else (if calls[0].id in answered then [] else [calls[0]]) + Unanswered(calls[1..], answered)
  }

  /** The calls of assistant messages without a tool message of the same id, in order. */
  function Pending(messages: seq<ChatMessage>): seq<ToolCall> {
    Unanswered(Calls(messages), Answered(messages))
  }

  function Ids(calls: seq<ToolCall>): set<string> {
    set c | c in calls :: c.id
  }

  ghost predicate DistinctIds(calls: seq<ToolCall>) {
    forall i, j :: 0 <= i < j < |calls| ==> calls[i].id != calls[j].id
  }

  /** Every call id and every answered id a history mentions. */
  function KnownIds(messages: seq<ChatMessage>): set<string> {
    Ids(Calls(messages)) + Answered(messages)
  }

  /** The ids of `calls` are new: distinct, and unknown to `messages`. */
  ghost predicate FreshIds(messages: seq<ChatMessage>, calls: seq<ToolCall>) {
    DistinctIds(calls) && Ids(calls) !! KnownIds(messages)
  }

  // ---------------------------------------------------------------- lemmas

  lemma {:induction false} CallsConcat(a: seq<ChatMessage>, b: seq<ChatMessage>)
    ensures Calls(a + b) == Calls(a) + Calls(b)
  {
    if a == [] {
      assert a + b == b;
    } else {
      CallsConcat(a[1..], b);
      HeadOfSum(a, b);
      Associative(CallsOf(a[0]), Calls(a[1..]), Calls(b));
    }
  }

  lemma AnsweredConcat(a: seq<ChatMessage>, b: seq<ChatMessage>)
    ensures Answered(a + b) == Answered(a) + Answered(b)
  {
    forall x | x in Answered(a) + Answered(b) ensures x in Answered(a + b) {
      var m :| m in a + b && m.role == ToolRole && m.toolCallId == Some(x);
    }
  }

  lemma {:induction false} UnansweredConcat(a: seq<ToolCall>, b: seq<ToolCall>, s: set<string>)
    ensures Unanswered(a + b, s) == Unanswered(a, s) + Unanswered(b, s)
  {
    if a == [] {
      assert a + b == b;
    } else {
      UnansweredConcat(a[1..], b, s);
      HeadOfSum(a, b);
      Associative(if a[0].id in s then [] else [a[0]], Unanswered(a[1..], s), Unanswered(b, s));
    }
  }

  /** Answering in two rounds is answering once. */
  lemma {:induction false} UnansweredTwice(calls: seq<ToolCall>, s: set<string>, t: set<string>)
    ensures Unanswered(Unanswered(calls, s), t) == Unanswered(calls, s + t)
  {
    if calls != [] {
      UnansweredTwice(calls[1..], s, t);
      var first := if calls[0].id in s then [] else [calls[0]];
      UnansweredConcat(first, Unanswered(calls[1..], s), t);
    }
  }

  /** A call is unanswered exactly when it is one of the calls and its id is not answered. */
  lemma {:induction false} UnansweredMembers(calls: seq<ToolCall>, s: set<string>)
    ensures forall c :: c in Unanswered(calls, s) <==> c in calls && c.id !in s
  {
    if calls != [] {
      UnansweredMembers(calls[1..], s);
      assert forall c :: c in calls <==> c == calls[0] || c in calls[1..];
    }
  }

  lemma {:induction false} UnansweredAll(calls: seq<ToolCall>, s: set<string>)
    requires Ids(calls) <= s
    ensures Unanswered(calls, s) == []
  {
    if calls != [] {
      assert calls[0].id in Ids(calls);
      forall x | x in Ids(calls[1..]) ensures x in Ids(calls) {
        var c :| c in calls[1..] && c.id == x;
        assert c in calls;
      }
      UnansweredAll(calls[1..], s);
    }
  }

  lemma {:induction false} UnansweredNone(calls: seq<ToolCall>, s: set<string>)
    requires Ids(calls) !! s
    ensures Unanswered(calls, s) == calls
  {
    if calls != [] {
      assert calls[0].id in Ids(calls);
      forall x | x in Ids(calls[1..]) ensures x in Ids(calls) {
        var c :| c in calls[1..] && c.id == x;
        assert c in calls;
      }
      UnansweredNone(calls[1..], s);
    }
  }

  /** What is pending after more messages: the old pending calls those messages
      do not answer, then their own unanswered calls. */
  lemma PendingAppend(messages: seq<ChatMessage>, more: seq<ChatMessage>)
    ensures Pending(messages + more)
         == Unanswered(Pending(messages), Answered(more))
          + Unanswered(Calls(more), Answered(messages) + Answered(more))
  {
    CallsConcat(messages, more);
    AnsweredConcat(messages, more);
    var s := Answered(messages) + Answered(more);
    UnansweredConcat(Calls(messages), Calls(more), s);
    UnansweredTwice(Calls(messages), Answered(messages), Answered(more));
  }

  lemma IdsConcat(a: seq<ToolCall>, b: seq<ToolCall>)
    ensures Ids(a + b) == Ids(a) + Ids(b)
  {
    forall x | x in Ids(a) + Ids(b) ensures x in Ids(a + b) {
      var c :| c in a + b && c.id == x;
    }
  }

  lemma {:induction false} CallsMembers(messages: seq<ChatMessage>)
    ensures forall c :: c in Calls(messages) <==>
      exists m :: m in messages && m.role == Assistant && m.toolCalls.Some? && c in m.toolCalls.value
  {
    if messages != [] {
      var m, rest := messages[0], messages[1..];
      CallsMembers(rest);
      assert forall n :: n in messages <==> n == m || n in rest;
      assert forall c :: c in CallsOf(m) <==> m.role == Assistant && m.toolCalls.Some? && c in m.toolCalls.value;
      assert Calls(messages) == CallsOf(m) + Calls(rest);
    }
  }

  /** A call is pending exactly when an assistant message makes it and no tool
      message answers its id; what other messages carry does not count. */
  lemma PendingExactly(messages: seq<ChatMessage>, c: ToolCall)
    ensures c in Pending(messages) <==>
      && (exists m :: m in messages && m.role == Assistant && m.toolCalls.Some? && c in m.toolCalls.value)
      && !(exists m :: m in messages && m.role == ToolRole && m.toolCallId == Some(c.id))
  {
    CallsMembers(messages);
    UnansweredMembers(Calls(messages), Answered(messages));
    if c.id in Answered(messages) {
      var m :| m in messages && m.role == ToolRole && m.toolCallId.Some? && m.toolCallId.value == c.id;
      assert m.toolCallId == Some(c.id);
    }
  }

  lemma PendingKnown(messages: seq<ChatMessage>)
    ensures Ids(Pending(messages)) <= Ids(Calls(messages)) <= KnownIds(messages)
    ensures Ids(Pending(messages)) !! Answered(messages)
  {
    UnansweredMembers(Calls(messages), Answered(messages));
  }
}
