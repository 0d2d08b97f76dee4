/**
 How calls and their answers pair up by id, in a form both wire formats share:
 the ids of the calls and of the answers, each in order.
 */
module WirePairing {
  import opened Prelude
  import opened LlmTypes

  datatype Pairs = Pairs(calls: seq<string>, answers: seq<string>) {
    function Then(rest: Pairs): Pairs {
      Pairs(calls + rest.calls, answers + rest.answers)
    }
  }

  function CallIds(calls: seq<ToolCall>): seq<string> {
    if calls == [] then [] else [calls[0].id] + CallIds(calls[1..])
  }

  /** The pairing ids of one message; an answer without an id is sent with the empty one. */
  function PairsOf(m: ChatMessage): Pairs {
    Pairs(CallIds(CallsOf(m)), if m.role == ToolRole then [m.toolCallId.GetOr("")] else [])
  }

  function HistoryPairs(messages: seq<ChatMessage>): Pairs {
    if messages == [] then Pairs([], []) else PairsOf(messages[0]).Then(HistoryPairs(messages[1..]))
  }

  function Without(ids: seq<string>, answered: seq<string>): seq<string> {
    if ids == [] then []
    else (if ids[0] in answered then [] else [ids[0]]) + Without(ids[1..], answered)
  }

  /** The pending computation on the wire: call ids without an answer of the same id. */
  function PendingIds(p: Pairs): seq<string> {
    Without(p.calls, p.answers)
  }

  /** What a message says, to whoever reads it: whose it is, its text, and the call it answers. */
  datatype Seen = Seen(role: Role, text: string, answers: Option<string>)

  function SeenIn(messages: seq<ChatMessage>): seq<Seen> {
    if messages == [] then []
    else
      var m := messages[0];
      [Seen(m.role, m.content, if m.role == ToolRole then Some(m.toolCallId.GetOr("")) else None)]
          + SeenIn(messages[1..])
  }

  /** An answer that does not say which call it answers. */
  ghost predicate AnonymousAnswer(messages: seq<ChatMessage>) {
    exists m :: m in messages && m.role == ToolRole && m.toolCallId.None?
  }

  lemma {:induction false} CallIdsConcat(a: seq<ToolCall>, b: seq<ToolCall>)
    ensures CallIds(a + b) == CallIds(a) + CallIds(b)
  {
    if a == [] {
      assert a + b == b;
    } else {
      assert (a + b)[1..] == a[1..] + b;
      CallIdsConcat(a[1..], b);
    }
  }

  lemma {:induction false} CallIdsMembers(calls: seq<ToolCall>)
    ensures forall x :: x in CallIds(calls) <==> x in Ids(calls)
  {
    if calls != [] {
      CallIdsMembers(calls[1..]);
      IdsConcat([calls[0]], calls[1..]);
      assert [calls[0]] + calls[1..] == calls;
      assert Ids([calls[0]]) == {calls[0].id};
    }
  }

  lemma {:induction false} SameIds(a: seq<ToolCall>, b: seq<ToolCall>)
    requires |a| == |b| && forall i :: 0 <= i < |a| ==> a[i].id == b[i].id
    ensures CallIds(a) == CallIds(b)
  {
    if a != [] {
      SameIds(a[1..], b[1..]);
    }
  }

  lemma {:induction false} HistoryPairsFacts(messages: seq<ChatMessage>)
    ensures var p := HistoryPairs(messages);
      && p.calls == CallIds(Calls(messages))
      && forall x :: x in p.answers <==> x in Answered(messages) || (x == "" && AnonymousAnswer(messages))
  {
    if messages != [] {
      var m, rest := messages[0], messages[1..];
      HistoryPairsFacts(rest);
      CallIdsConcat(CallsOf(m), Calls(rest));
      assert messages == [m] + rest;
      AnsweredConcat([m], rest);
      assert forall n :: n in messages <==> n == m || n in rest;
      assert m in [m];
      assert AnonymousAnswer(messages) <==> AnonymousAnswer(rest) || (m.role == ToolRole && m.toolCallId.None?);
    }
  }

  lemma {:induction false} WithoutIsUnanswered(calls: seq<ToolCall>, answers: seq<string>, answered: set<string>)
    requires forall x :: x in answers <==> x in answered
    ensures Without(CallIds(calls), answers) == CallIds(Unanswered(calls, answered))
  {
    if calls != [] {
      WithoutIsUnanswered(calls[1..], answers, answered);
      var first := if calls[0].id in answered then [] else [calls[0]];
      CallIdsConcat(first, Unanswered(calls[1..], answered));
    }
  }

  /** What is pending on the wire is what is pending in the history, in order,
      unless an answer without an id and a pending call with the empty id meet. */
  lemma PendingOnTheWireExactly(messages: seq<ChatMessage>)
    ensures PendingIds(HistoryPairs(messages)) == CallIds(Pending(messages))
       <==> !(AnonymousAnswer(messages) && "" in Ids(Pending(messages)))
  {
    var p := HistoryPairs(messages);
    HistoryPairsFacts(messages);
    var blank := if AnonymousAnswer(messages) then {""} else {};
    WithoutIsUnanswered(Calls(messages), p.answers, Answered(messages) + blank);
    UnansweredTwice(Calls(messages), Answered(messages), blank);
    var pending := Pending(messages);
    if "" in Ids(pending) && AnonymousAnswer(messages) {
      CallIdsMembers(pending);
      CallIdsMembers(Unanswered(pending, blank));
      UnansweredMembers(pending, blank);
      assert "" in CallIds(pending) && "" !in CallIds(Unanswered(pending, blank));
    } else {
      UnansweredNone(pending, blank);
    }
  }
}
