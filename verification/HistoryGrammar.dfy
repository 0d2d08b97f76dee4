/**
 The shape of stored histories: user messages, and assistant messages with calls
 followed contiguously by one answer per call. Only the last block of a paused
 history is open, and lacks exactly the awaited answers.
 */
module HistoryGrammar {
  import opened Prelude
  import opened LlmTypes
  import opened Tools
  import opened AgentLoop
  import opened AgentShape
  import opened PendingCalls
  import opened Approvals

  datatype Turn = UserTurn(message: ChatMessage) | ToolTurn(head: ChatMessage, answers: seq<ChatMessage>)

  function Messages(turn: Turn): seq<ChatMessage> {
    match turn
    case UserTurn(m) => [m]
    case ToolTurn(head, answers) => [head] + answers
  }

  function Flatten(turns: seq<Turn>): seq<ChatMessage> {
    if turns == [] then [] else Messages(turns[0]) + Flatten(turns[1..])
  }

  /** The ids of calls, with repetition. */
  function CallIdBag(calls: seq<ToolCall>): multiset<string> {
    if calls == [] then multiset{} else multiset{calls[0].id} + CallIdBag(calls[1..])
  }

  function AnswerIds(answers: seq<ChatMessage>): multiset<string> {
    if answers == [] then multiset{} else multiset{answers[0].toolCallId.GetOr("")} + AnswerIds(answers[1..])
  }

  ghost predicate IsAnswer(m: ChatMessage) {
    m.role == ToolRole && m.toolCallId.Some?
  }

  /** A turn whose answers and `open` calls are together a permutation of its calls. */
  ghost predicate TurnWith(turn: Turn, open: seq<ToolCall>) {
    match turn
    case UserTurn(m) => m.role == User && open == []
    case ToolTurn(head, answers) =>
      && head.role == Assistant && head.toolCalls.Some? && head.toolCalls.value != []
      && (forall m :: m in answers ==> IsAnswer(m))
      && AnswerIds(answers) + CallIdBag(open) == CallIdBag(head.toolCalls.value)
  }

  ghost predicate Turns(turns: seq<Turn>, open: seq<ToolCall>) {
    if turns == [] then open == []
    else
      && (forall i :: 0 <= i < |turns| - 1 ==> TurnWith(turns[i], []))
      && TurnWith(turns[|turns| - 1], open)
  }

  /** `history` is a sequence of turns, all complete except that the last lacks answers to `open`. */
  ghost predicate Grammatical(history: seq<ChatMessage>, open: seq<ToolCall>) {
    exists turns :: Flatten(turns) == history && Turns(turns, open)
  }

  lemma {:induction false} FlattenConcat(a: seq<Turn>, b: seq<Turn>)
    ensures Flatten(a + b) == Flatten(a) + Flatten(b)
  {
    if a == [] {
      assert a + b == b;
    } else {
      FlattenConcat(a[1..], b);
      HeadOfSum(a, b);
      Associative(Messages(a[0]), Flatten(a[1..]), Flatten(b));
    }
  }

  lemma FlattenOne(turn: Turn)
    ensures Flatten([turn]) == Messages(turn)
  {
    assert Flatten([turn]) == Messages(turn) + Flatten([turn][1..]);
  }

  lemma AppendTurn(history: seq<ChatMessage>, turn: Turn, open: seq<ToolCall>)
    requires Grammatical(history, []) && TurnWith(turn, open)
    ensures Grammatical(history + Messages(turn), open)
  {
    var turns: seq<Turn> :| Flatten(turns) == history && Turns(turns, []);
    FlattenConcat(turns, [turn]);
    FlattenOne(turn);
    var more := turns + [turn];
    forall i | 0 <= i < |more| - 1 ensures TurnWith(more[i], []) {
      assert more[i] == turns[i];
    }
    assert Flatten(more) == history + Messages(turn) && Turns(more, open);
  }

  lemma {:induction false} AnswerIdsConcat(a: seq<ChatMessage>, b: seq<ChatMessage>)
    ensures AnswerIds(a + b) == AnswerIds(a) + AnswerIds(b)
  {
    if a == [] {
      assert a + b == b;
    } else {
      assert (a + b)[1..] == a[1..] + b;
      AnswerIdsConcat(a[1..], b);
    }
  }

  lemma {:induction false} JobAnswerIds(host: Host, jobs: seq<Job>, results: seq<ToolResult>)
    requires |jobs| == |results|
    ensures AnswerIds(Answers(host, jobs, results)) == CallIdBag(JobCalls(jobs))
    ensures forall m :: m in Answers(host, jobs, results) ==> IsAnswer(m)
    decreases |jobs|
  {
    if jobs != [] {
      JobAnswerIds(host, jobs[1..], results[1..]);
    }
  }

  lemma CompletedTurn(last: Turn, open: seq<ToolCall>, answers: seq<ChatMessage>)
    requires TurnWith(last, open) && last.ToolTurn?
    requires AnswerIds(answers) == CallIdBag(open) && forall m :: m in answers ==> IsAnswer(m)
    ensures var completed := ToolTurn(last.head, last.answers + answers);
      TurnWith(completed, []) && Messages(completed) == Messages(last) + answers
  {
    var all := last.answers + answers;
    assert AnswerIds(all) == AnswerIds(last.answers) + CallIdBag(open) by {
      AnswerIdsConcat(last.answers, answers);
    }
    assert AnswerIds(all) + CallIdBag([]) == CallIdBag(last.head.toolCalls.value);
    assert forall m :: m in all ==> m in last.answers || m in answers;
    assert [last.head] + all == [last.head] + last.answers + answers;
  }

  lemma FlattenSnoc(front: seq<Turn>, last: Turn)
    ensures Flatten(front + [last]) == Flatten(front) + Messages(last)
  {
    FlattenConcat(front, [last]);
    FlattenOne(last);
  }

  lemma ReplaceLast(front: seq<Turn>, last: Turn, open: seq<ToolCall>, completed: Turn, answers: seq<ChatMessage>)
    requires Turns(front + [last], open)
    requires TurnWith(completed, []) && Messages(completed) == Messages(last) + answers
    ensures Grammatical(Flatten(front + [last]) + answers, [])
  {
    var turns, more := front + [last], front + [completed];
    assert Flatten(more) == Flatten(turns) + answers by {
      FlattenSnoc(front, last);
      FlattenSnoc(front, completed);
      Associative(Flatten(front), Messages(last), answers);
    }
    ReplaceLastTurn(front, last, open, completed);
  }

  lemma ReplaceLastTurn(front: seq<Turn>, last: Turn, open: seq<ToolCall>, completed: Turn)
    requires Turns(front + [last], open) && TurnWith(completed, [])
    ensures Turns(front + [completed], [])
  {
    var turns, more := front + [last], front + [completed];
    assert more[|more| - 1] == completed;
    forall i | 0 <= i < |more| - 1 ensures TurnWith(more[i], []) {
      assert more[i] == front[i] == turns[i];
    }
  }

  /** Answering everything open completes a history. */
  lemma CompleteLast(history: seq<ChatMessage>, open: seq<ToolCall>, answers: seq<ChatMessage>)
    requires Grammatical(history, open) && open != []
    requires AnswerIds(answers) == CallIdBag(open) && forall m :: m in answers ==> IsAnswer(m)
    ensures Grammatical(history + answers, [])
  {
    var turns: seq<Turn> :| Flatten(turns) == history && Turns(turns, open);
    var front, last := turns[..|turns| - 1], turns[|turns| - 1];
    assert turns == front + [last];
    CompletedTurn(last, open, answers);
    ReplaceLast(front, last, open, ToolTurn(last.head, last.answers + answers), answers);
  }

  lemma CallIdBagHead(c: ToolCall, rest: seq<ToolCall>, id: string)
    ensures CallIdBag([c] + rest)[id] == CallIdBag(rest)[id] + if c.id == id then 1 else 0
  {
    assert ([c] + rest)[1..] == rest;
  }

  lemma PartitionHead(registry: Registry, calls: seq<ToolCall>)
    requires calls != []
    ensures var c, rest := calls[0], calls[1..];
      && ReadOnlyCalls(registry, calls) == (if IsReadOnly(registry, c.name) then [c] else [])
          + ReadOnlyCalls(registry, rest)
      && MutatingCalls(registry, calls) == (if IsMutating(registry, c.name) then [c] else [])
          + MutatingCalls(registry, rest)
      && ApprovalCalls(registry, calls) == (if NeedsApproval(registry, c.name) then [c] else [])
          + ApprovalCalls(registry, rest)
  {
  }

  ghost predicate Split(calls: seq<ToolCall>, ro: seq<ToolCall>, mu: seq<ToolCall>, na: seq<ToolCall>, id: string) {
    CallIdBag(ro)[id] + CallIdBag(mu)[id] + CallIdBag(na)[id] == CallIdBag(calls)[id]
  }

  lemma SplitHead(c: ToolCall, calls: seq<ToolCall>, ro: seq<ToolCall>, mu: seq<ToolCall>, na: seq<ToolCall>,
                  id: string)
    requires Split(calls, ro, mu, na, id)
    ensures Split([c] + calls, [c] + ro, mu, na, id)
    ensures Split([c] + calls, ro, [c] + mu, na, id)
    ensures Split([c] + calls, ro, mu, [c] + na, id)
  {
    CallIdBagHead(c, calls, id);
    CallIdBagHead(c, ro, id);
    CallIdBagHead(c, mu, id);
    CallIdBagHead(c, na, id);
  }

  lemma {:induction false} PartitionCounts(registry: Registry, calls: seq<ToolCall>, id: string)
    ensures Split(calls, ReadOnlyCalls(registry, calls), MutatingCalls(registry, calls),
                  ApprovalCalls(registry, calls), id)
  {
    if calls != [] {
      var c, rest := calls[0], calls[1..];
      PartitionCounts(registry, rest, id);
      var ro, mu, na := ReadOnlyCalls(registry, rest), MutatingCalls(registry, rest), ApprovalCalls(registry, rest);
      SplitHead(c, rest, ro, mu, na, id);
      assert calls == [c] + rest;
      OneJoins(registry, calls, ro, mu, na);
    }
  }

  /** The first call joins exactly one bucket. */
  lemma OneJoins(registry: Registry, calls: seq<ToolCall>, ro: seq<ToolCall>, mu: seq<ToolCall>, na: seq<ToolCall>)
    requires calls != [] && ro == ReadOnlyCalls(registry, calls[1..])
    requires mu == MutatingCalls(registry, calls[1..]) && na == ApprovalCalls(registry, calls[1..])
    ensures (ReadOnlyCalls(registry, calls), MutatingCalls(registry, calls), ApprovalCalls(registry, calls)) in
      {([calls[0]] + ro, mu, na), (ro, [calls[0]] + mu, na), (ro, mu, [calls[0]] + na)}
  {
    PartitionHead(registry, calls);
    assert [] + ro == ro && [] + mu == mu && [] + na == na;
  }

  lemma PartitionIds(registry: Registry, calls: seq<ToolCall>)
    ensures CallIdBag(ReadOnlyCalls(registry, calls)) + CallIdBag(MutatingCalls(registry, calls))
        + CallIdBag(ApprovalCalls(registry, calls))
         == CallIdBag(calls)
  {
    var ro, mu, na := ReadOnlyCalls(registry, calls), MutatingCalls(registry, calls), ApprovalCalls(registry, calls);
    forall id ensures (CallIdBag(ro) + CallIdBag(mu) + CallIdBag(na))[id] == CallIdBag(calls)[id] {
      PartitionCounts(registry, calls, id);
      assert Split(calls, ro, mu, na, id);
    }
  }

  lemma {:induction false} CallIdBagConcat(a: seq<ToolCall>, b: seq<ToolCall>)
    ensures CallIdBag(a + b) == CallIdBag(a) + CallIdBag(b)
  {
    if a == [] {
      assert a + b == b;
    } else {
      assert (a + b)[1..] == a[1..] + b;
      CallIdBagConcat(a[1..], b);
    }
  }

  /** For any ids: a block is one turn, open for exactly the calls needing approval. */
  lemma BlockIsTurn(env: Env, store: Tickets.Store, r: LlmResponse)
    requires r.toolCalls != []
    ensures var turn := ToolTurn(AssistantMessage(r.content, r.toolCalls), Block(env, store, r)[1..]);
      Messages(turn) == Block(env, store, r) && TurnWith(turn, ApprovalCalls(env.host.registry, r.toolCalls))
  {
    var jobs := SafeJobs(env, r);
    var results := Replay(env.host, store, jobs).results;
    var answers := Answers(env.host, jobs, results);
    assert Block(env, store, r)[1..] == answers;
    JobAnswerIds(env.host, jobs, results);
    RunAllCalls(SafeCalls(env.host.registry, r.toolCalls));
    CallIdBagConcat(ReadOnlyCalls(env.host.registry, r.toolCalls), MutatingCalls(env.host.registry, r.toolCalls));
    PartitionIds(env.host.registry, r.toolCalls);
  }

  lemma {:induction false} LoopGrammar(env: Env, f: Frame, s: LoopState)
    requires Grammatical(s.messages, [])
    ensures var e := RunLoop(env, f, s);
      e.Ended? ==> Grammatical(e.s.messages, AwaitingOf(e))
    decreases env.budget.maxIterations - s.acc.iterations
  {
    if s.acc.iterations < env.budget.maxIterations {
      IterateAdvances(env, f, s);
      IterateCases(env, f, s);
      var step := Iterate(env, f, s);
      if HasBatch(env, f, s) && Survives(step) {
        var s1, r := BatchStart(env, f, s), BatchReply(env, f, s);
        BatchShape(env, f, s1, r);
        SafeShape(env, s1, r);
        BlockIsTurn(env, s.store, r);
        AppendTurn(s.messages, ToolTurn(AssistantMessage(r.content, r.toolCalls), Block(env, s.store, r)[1..]),
                   ApprovalCalls(env.host.registry, r.toolCalls));
      }
      if step.Continue? {
        LoopGrammar(env, f, step.s);
      }
    }
  }

  lemma StartGrammar(env: Env, conversationId: string, system: string, s: LoopState)
    requires Grammatical(s.messages, [])
    ensures var e := StartLoop(env, conversationId, system, s);
      e.Ended? ==> Grammatical(e.s.messages, AwaitingOf(e))
  {
    hide RunLoop;
    var f := Frame(conversationId, system, env.clock(s.meter.readings));
    LoopGrammar(env, f, s.(meter := s.meter.(readings := s.meter.readings + 1)));
  }

  lemma ApproveGrammar(env: Env, session: Session, jobs: seq<Job>)
    requires JobCalls(jobs) == Pending(session.history) != []
    requires Grammatical(session.history, Pending(session.history))
    ensures var e := ApproveEnding(env, session, jobs);
      e.Ended? ==> Grammatical(e.s.messages, AwaitingOf(e))
  {
    var s := ApproveStart(session);
    var done := AnswerJobs(env, Decided, jobs, s);
    if done.error.None? {
      AnswerJobsIsReplay(env, Decided, jobs, s);
      var results := Replay(env.host, s.store, jobs).results;
      JobAnswerIds(env.host, jobs, results);
      CompleteLast(session.history, Pending(session.history), Answers(env.host, jobs, results));
      StartGrammar(env, session.conversationId, env.defaultSystem, done.s);
    }
  }

  /** The request strands the outstanding approvals: a chat that returns while some
      are pending. A chat that throws persists nothing. */
  predicate Strands(env: Env, session: Session, request: AgentLoop.Request) {
    request.Chat? && Serve(env, session, request).1.Responded? && Pending(session.history) != []
  }

  lemma ServeGrammar(env: Env, session: Session, request: AgentLoop.Request)
    requires FreshModel(env)
    requires Grammatical(session.history, Pending(session.history))
    requires !Strands(env, session, request)
    ensures var next := Serve(env, session, request).0;
      Grammatical(next.history, Pending(next.history))
  {
    ServePending(env, session, request);
    ServeAppends(env, session, request);
    match request
    case Chat(text, system) =>
      if Pending(session.history) == [] {
        AppendTurn(session.history, UserTurn(UserMessage(text)), []);
        StartGrammar(env, session.conversationId, system.GetOr(env.defaultSystem), ChatStart(session, text));
        var e := ChatEnding(env, session, text, system);
        assert [] + AwaitingOf(e) == AwaitingOf(e);
      }
    case Approve(decisions) =>
      var checked := CheckApproval(env.host.registry, session.history, decisions);
      if checked.Jobs? {
        AcceptedJobs(env.host.registry, session.history, decisions);
        ApproveGrammar(env, session, checked.jobs);
      }
  }

  // ------------------------------------------------- a user message closes all

  lemma {:induction false} AnswerIdsMembers(answers: seq<ChatMessage>)
    requires forall m :: m in answers ==> IsAnswer(m)
    ensures forall x :: x in AnswerIds(answers) <==> x in Answered(answers)
  {
    if answers != [] {
      var head, rest := answers[0], answers[1..];
      assert head in answers && forall m :: m in rest ==> m in answers;
      AnswerIdsMembers(rest);
      assert answers == [head] + rest;
      AnsweredConcat([head], rest);
      AnsweredOne(head);
    }
  }

  lemma {:induction false} CallIdBagMembers(calls: seq<ToolCall>)
    ensures forall x :: x in CallIdBag(calls) <==> x in Ids(calls)
  {
    if calls != [] {
      CallIdBagMembers(calls[1..]);
      assert calls == [calls[0]] + calls[1..];
      IdsConcat([calls[0]], calls[1..]);
      assert Ids([calls[0]]) == {calls[0].id};
    }
  }

  lemma {:induction false} AnswersCallNothing(answers: seq<ChatMessage>)
    requires forall m :: m in answers ==> IsAnswer(m)
    ensures Calls(answers) == []
  {
    if answers != [] {
      assert answers[0] in answers && forall m :: m in answers[1..] ==> m in answers;
      AnswersCallNothing(answers[1..]);
    }
  }

  /** A complete turn answers all its calls. */
  lemma CompleteTurnAnswersAll(turn: Turn)
    requires TurnWith(turn, [])
    ensures Ids(Calls(Messages(turn))) <= Answered(Messages(turn))
  {
    match turn
    case UserTurn(m) =>
      assert Calls([m]) == CallsOf(m) + Calls([]);
    case ToolTurn(head, answers) =>
      CallsConcat([head], answers);
      AnsweredConcat([head], answers);
      AnswersCallNothing(answers);
      AnswerIdsMembers(answers);
      CallIdBagMembers(head.toolCalls.value);
      assert Calls([head]) == CallsOf(head) + Calls([]);
      assert Calls(Messages(turn)) == head.toolCalls.value;
      assert AnswerIds(answers) == CallIdBag(head.toolCalls.value);
  }

  lemma AnsweredTwice(a: seq<ChatMessage>, b: seq<ChatMessage>)
    requires Ids(Calls(a)) <= Answered(a) && Ids(Calls(b)) <= Answered(b)
    ensures Ids(Calls(a + b)) <= Answered(a + b)
  {
    CallsConcat(a, b);
    AnsweredConcat(a, b);
    IdsConcat(Calls(a), Calls(b));
  }

  /** No message of a turn with calls is a user's. */
  lemma ToolTurnRoles(turn: Turn, open: seq<ToolCall>, k: nat)
    requires TurnWith(turn, open) && turn.ToolTurn? && k < |Messages(turn)|
    ensures Messages(turn)[k].role != User
  {
    assert k > 0 ==> Messages(turn)[k] == turn.answers[k - 1] && turn.answers[k - 1] in turn.answers;
  }

  lemma CutAfter<T>(a: seq<T>, b: seq<T>, before: seq<T>, m: T, more: seq<T>)
    requires a + b == before + [m] + more && |a| <= |before|
    ensures before == a + before[|a|..] && b == before[|a|..] + [m] + more
  {
    assert before == (a + b)[..|before|] && a == (a + b)[..|a|];
    assert b == (a + b)[|a|..];
    assert (before + [m] + more)[|a|..] == before[|a|..] + [m] + more;
  }

  /** So whatever comes before a user message consists of complete turns. */
  lemma {:induction false} BeforeUserAllAnswered(turns: seq<Turn>, open: seq<ToolCall>, history: seq<ChatMessage>,
                                                 m: ChatMessage, more: seq<ChatMessage>)
    requires Turns(turns, open) && m.role == User
    requires Flatten(turns) == history + [m] + more
    ensures Ids(Calls(history)) <= Answered(history)
  {
    if history != [] {
      var first, rest := turns[0], turns[1..];
      var size := |Messages(first)|;
      assert Flatten(turns) == Messages(first) + Flatten(rest);
      assert |history| >= size by {
        assert (history + [m] + more)[|history|] == m;
        if first.ToolTurn? && |history| < size {
          ToolTurnRoles(first, if rest == [] then open else [], |history|);
        }
      }
      CutAfter(Messages(first), Flatten(rest), history, m, more);
      assert rest != [];
      RestTurns(turns, open);
      BeforeUserAllAnswered(rest, open, history[size..], m, more);
      CompleteTurnAnswersAll(first);
      AnsweredTwice(Messages(first), history[size..]);
    }
  }

  lemma RestTurns(turns: seq<Turn>, open: seq<ToolCall>)
    requires |turns| > 1 && Turns(turns, open)
    ensures Turns(turns[1..], open)
  {
    var rest := turns[1..];
    assert rest[|rest| - 1] == turns[|turns| - 1];
    forall i | 0 <= i < |rest| - 1 ensures TurnWith(rest[i], []) {
      assert rest[i] == turns[i + 1];
    }
  }

  /** For any ids: a history that goes on with a user message can only be in the
      grammar, open for anything, if nothing was pending at that message. */
  lemma UserNeedsNothingPending(history: seq<ChatMessage>, m: ChatMessage, more: seq<ChatMessage>, open: seq<ToolCall>)
    requires m.role == User && Grammatical(history + [m] + more, open)
    ensures Pending(history) == []
  {
    var turns: seq<Turn> :| Flatten(turns) == history + [m] + more && Turns(turns, open);
    BeforeUserAllAnswered(turns, open, history, m, more);
    UnansweredAll(Calls(history), Answered(history));
  }

  lemma NoGrammarAfter(history: seq<ChatMessage>, m: ChatMessage, next: seq<ChatMessage>, end: seq<ChatMessage>,
                       open: seq<ToolCall>)
    requires m.role == User && history + [m] <= next <= end && Pending(history) != []
    ensures !Grammatical(end, open)
  {
    var more := end[|history| + 1..];
    assert end == history + [m] + more;
    if Grammatical(history + [m] + more, open) {
      UserNeedsNothingPending(history, m, more, open);
    }
  }

  lemma ChatAppendsUser(env: Env, session: Session, text: string, system: Option<string>)
    requires Serve(env, session, Chat(text, system)).1.Responded?
    ensures session.history + [UserMessage(text)] <= Serve(env, session, Chat(text, system)).0.history
  {
    StartAppends(env, session.conversationId, system.GetOr(env.defaultSystem), ChatStart(session, text));
  }

  /** A chat that returned while something was pending ruins the grammar for good:
      no history of any later run is in it, open for anything, even once an
      approval has answered every call. */
  lemma StrandedForGood(env: Env, session: Session, request: AgentLoop.Request, later: seq<AgentLoop.Request>,
                        open: seq<ToolCall>)
    requires Strands(env, session, request)
    ensures !Grammatical(Run(env, Serve(env, session, request).0, later).history, open)
  {
    var next := Serve(env, session, request).0;
    ChatAppendsUser(env, session, request.text, request.system);
    RunAppends(env, next, later);
    NoGrammarAfter(session.history, UserMessage(request.text), next.history, Run(env, next, later).history, open);
  }

  /** One chat that returns keeps a history in the grammar if and only if nothing
      was pending before it. */
  lemma ChatKeepsGrammarExactly(env: Env, session: Session, text: string, system: Option<string>)
    requires FreshModel(env) && Grammatical(session.history, Pending(session.history))
    requires Serve(env, session, Chat(text, system)).1.Responded?
    ensures var next := Serve(env, session, Chat(text, system)).0;
      Grammatical(next.history, Pending(next.history)) <==> Pending(session.history) == []
  {
    var request := Chat(text, system);
    if Pending(session.history) == [] {
      ServeGrammar(env, session, request);
    } else {
      var next := Serve(env, session, request).0;
      StrandedForGood(env, session, request, [], Pending(next.history));
    }
  }

  // ------------------------------------------------------------- whole runs

  /** Some request of the run strands outstanding approvals. */
  predicate SomeStrands(env: Env, session: Session, requests: seq<AgentLoop.Request>)
    decreases |requests|
  {
    if requests == [] then false
    else Strands(env, session, requests[0]) || SomeStrands(env, Serve(env, session, requests[0]).0, requests[1..])
  }

  /** The history a run reaches from a parsing one parses, open for exactly its
      pending calls, if and only if no chat returned while something was pending;
      otherwise it does not parse, open for anything at all. While it parses, the
      status is PAUSED exactly when something is pending, so a COMPLETED history is
      fully paired. */
  lemma {:induction false} HistoriesParse(env: Env, session: Session, requests: seq<AgentLoop.Request>)
    requires FreshModel(env)
    requires Grammatical(session.history, Pending(session.history))
    requires session.status == PAUSED <==> Pending(session.history) != []
    ensures var end := Run(env, session, requests);
      && (Grammatical(end.history, Pending(end.history)) <==> !SomeStrands(env, session, requests))
      && (SomeStrands(env, session, requests) ==> forall open :: !Grammatical(end.history, open))
      && (!SomeStrands(env, session, requests) ==> (end.status == PAUSED <==> Pending(end.history) != []))
    decreases |requests|
  {
    hide RunLoop;
    if requests != [] {
      var (next, served) := Serve(env, session, requests[0]);
      if Strands(env, session, requests[0]) {
        forall open ensures !Grammatical(Run(env, session, requests).history, open) {
          StrandedForGood(env, session, requests[0], requests[1..], open);
        }
      } else {
        ServeGrammar(env, session, requests[0]);
        ServePending(env, session, requests[0]);
        ServeAppends(env, session, requests[0]);
        AwaitsSomething(env, session, requests[0]);
        HistoriesParse(env, next, requests[1..]);
      }
    }
  }

  lemma EmptyHistoryParses()
    ensures Grammatical([], Pending([]))
  {
    assert Flatten([]) == [] && Turns([], []);
  }
}
