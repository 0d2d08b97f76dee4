/**
 The calls a history leaves unanswered are recomputed, never stored. Over every
 run they are exactly the approvals outstanding.
 */
module PendingCalls {
  import opened Prelude
  import opened LlmTypes
  import opened Tools
  import opened AgentLoop
  import opened AgentShape

  /** The model names new ids: distinct in one reply, and unknown to the history it was sent. */
  ghost predicate FreshModel(env: Env) {
    forall n, request :: env.llm(n, request).Reply? ==>
      FreshIds(request.messages, env.llm(n, request).response.toolCalls)
  }

  // ------------------------------------------------------------- one block

  lemma {:induction false} UnansweredApprovals(registry: Registry, calls: seq<ToolCall>, answered: set<string>)
    requires forall c :: c in calls ==> (c.id in answered <==> !NeedsApproval(registry, c.name))
    ensures Unanswered(calls, answered) == ApprovalCalls(registry, calls)
  {
    if calls != [] {
      assert calls[0] in calls;
      assert forall c :: c in calls[1..] ==> c in calls;
      UnansweredApprovals(registry, calls[1..], answered);
    }
  }

  lemma SafeIds(registry: Registry, calls: seq<ToolCall>)
    ensures forall c :: c in calls && !NeedsApproval(registry, c.name) ==> c.id in Ids(SafeCalls(registry, calls))
    ensures Ids(SafeCalls(registry, calls)) <= Ids(calls)
  {
    SafeMembers(registry, calls);
  }

  /** For any ids: what a block leaves pending was pending before or needs approval. */
  lemma PendingAfterBlock(env: Env, store: Tickets.Store, messages: seq<ChatMessage>, r: LlmResponse)
    ensures forall c :: c in Pending(messages + Block(env, store, r)) ==>
      c in Pending(messages) || c in ApprovalCalls(env.host.registry, r.toolCalls)
  {
    var registry := env.host.registry;
    var block := Block(env, store, r);
    BlockFacts(env, store, r);
    PendingAppend(messages, block);
    SafeIds(registry, r.toolCalls);
    PartitionMembers(registry, r.toolCalls);
    UnansweredMembers(Pending(messages), Answered(block));
    UnansweredMembers(r.toolCalls, Answered(messages) + Answered(block));
  }

  /** With new ids: exactly the calls needing approval join the pending ones, in order. */
  lemma FreshPendingAfterBlock(env: Env, store: Tickets.Store, messages: seq<ChatMessage>, r: LlmResponse)
    requires FreshIds(messages, r.toolCalls)
    ensures Pending(messages + Block(env, store, r)) == Pending(messages)
        + ApprovalCalls(env.host.registry, r.toolCalls)
  {
    var registry := env.host.registry;
    var block := Block(env, store, r);
    BlockFacts(env, store, r);
    PendingAppend(messages, block);
    SafeIds(registry, r.toolCalls);
    PendingKnown(messages);
    UnansweredNone(Pending(messages), Answered(block));
    var s := Answered(messages) + Answered(block);
    forall c | c in r.toolCalls ensures c.id in s <==> !NeedsApproval(registry, c.name) {
      assert c.id in Ids(r.toolCalls);
      if c.id in Answered(block) {
        var d :| d in SafeCalls(registry, r.toolCalls) && d.id == c.id;
        SafeMembers(registry, r.toolCalls);
        SameIdSameCall(r.toolCalls, c, d);
      }
    }
    UnansweredApprovals(registry, r.toolCalls, s);
  }

  lemma SameIdSameCall(calls: seq<ToolCall>, c: ToolCall, d: ToolCall)
    requires DistinctIds(calls) && c in calls && d in calls && c.id == d.id
    ensures c == d
  {
    var i :| 0 <= i < |calls| && calls[i] == c;
    var j :| 0 <= j < |calls| && calls[j] == d;
    assert i == j;
  }

  // -------------------------------------------------------------- the loop

  function AwaitingOf(ending: Ending): seq<ToolCall> {
    if ending.Ended? then ending.response.awaitingApproval.GetOr([]) else []
  }

  lemma BatchReplyFresh(env: Env, f: Frame, s: LoopState)
    requires HasBatch(env, f, s) && FreshModel(env)
    ensures FreshIds(s.messages, BatchReply(env, f, s).toolCalls)
  {
    ReplyComesFromModel(env, RequestOf(env, f, s.messages), s.meter.attempts, 1, NO_ATTEMPT);
  }

  lemma {:induction false} LoopPending(env: Env, f: Frame, s: LoopState)
    requires FreshModel(env)
    ensures var e := RunLoop(env, f, s);
      e.Ended? ==> Pending(e.s.messages) == Pending(s.messages) + AwaitingOf(e)
    decreases env.budget.maxIterations - s.acc.iterations
  {
    if s.acc.iterations < env.budget.maxIterations {
      IterateAdvances(env, f, s);
      IterateCases(env, f, s);
      var step := Iterate(env, f, s);
      if HasBatch(env, f, s) && Survives(step) {
        var r := BatchReply(env, f, s);
        BatchShape(env, f, BatchStart(env, f, s), r);
        SafeShape(env, BatchStart(env, f, s), r);
        BatchReplyFresh(env, f, s);
        FreshPendingAfterBlock(env, s.store, s.messages, r);
      }
      if step.Continue? {
        LoopPending(env, f, step.s);
      }
    }
  }

  /** Every pending call names a tool that needs approval. */
  ghost predicate AllDecidable(registry: Registry, messages: seq<ChatMessage>) {
    forall c :: c in Pending(messages) ==> NeedsApproval(registry, c.name)
  }

  lemma {:induction false} LoopDecidable(env: Env, f: Frame, s: LoopState)
    requires AllDecidable(env.host.registry, s.messages)
    ensures var e := RunLoop(env, f, s);
      e.Ended? ==> AllDecidable(env.host.registry, e.s.messages)
    decreases env.budget.maxIterations - s.acc.iterations
  {
    if s.acc.iterations < env.budget.maxIterations {
      IterateAdvances(env, f, s);
      IterateCases(env, f, s);
      var step := Iterate(env, f, s);
      if HasBatch(env, f, s) && Survives(step) {
        var r := BatchReply(env, f, s);
        BatchShape(env, f, BatchStart(env, f, s), r);
        SafeShape(env, BatchStart(env, f, s), r);
        PendingAfterBlock(env, s.store, s.messages, r);
        PartitionMembers(env.host.registry, r.toolCalls);
      }
      if step.Continue? {
        LoopDecidable(env, f, step.s);
      }
    }
  }

  // ----------------------------------------------------------- an approval

  lemma {:induction false} EffectiveCalls(pending: seq<ToolCall>, byId: map<string, bool>)
    ensures JobCalls(Effective(pending, byId)) == pending
    ensures forall j :: j in Effective(pending, byId) ==>
      j.call in pending && (j.run <==> j.call.id in byId && byId[j.call.id])
  {
    if pending != [] {
      EffectiveCalls(pending[1..], byId);
    }
  }

  lemma AcceptedJobs(registry: Registry, history: seq<ChatMessage>, decisions: seq<Decision>)
    requires CheckApproval(registry, history, decisions).Jobs?
    ensures JobCalls(CheckApproval(registry, history, decisions).jobs) == Pending(history)
  {
    var byId := Collect(Pending(history), decisions, map[]).byId;
    EffectiveCalls(Pending(history), byId);
  }

  /** For any ids: once its calls are answered, an approved history has nothing pending. */
  lemma ApprovalClears(env: Env, session: Session, jobs: seq<Job>)
    requires JobCalls(jobs) == Pending(session.history)
    requires AnswerJobs(env, Decided, jobs, ApproveStart(session)).error.None?
    ensures var s := AnswerJobs(env, Decided, jobs, ApproveStart(session)).s;
      && session.history <= s.messages
      && Pending(s.messages) == []
      && Answered(s.messages) == Answered(session.history) + Ids(Pending(session.history))
  {
    var s := ApproveStart(session);
    AnswerJobsIsReplay(env, Decided, jobs, s);
    var results := Replay(env.host, s.store, jobs).results;
    var answers := Answers(env.host, jobs, results);
    AnswersFacts(env.host, jobs, results);
    PendingAppend(session.history, answers);
    AnsweredConcat(session.history, answers);
    UnansweredAll(Pending(session.history), Answered(answers));
    UnansweredAll([], Answered(session.history) + Answered(answers));
  }

  // ---------------------------------------------------------- over a run

  function NewlyAwaiting(served: Served): seq<ToolCall> {
    if served.Responded? then served.response.awaitingApproval.GetOr([]) else []
  }

  /** The approvals outstanding after one more request: a returned chat adds its
      pause, a returned approval replaces everything by its pause, a request
      that does not return changes nothing. */
  function OutstandingAfter(outstanding: seq<ToolCall>, request: Request, served: Served): seq<ToolCall> {
    if !served.Responded? then outstanding
    else if request.Chat? then outstanding + NewlyAwaiting(served)
    else NewlyAwaiting(served)
  }

  function Outstanding(env: Env, session: Session, requests: seq<Request>, outstanding: seq<ToolCall>): seq<ToolCall>
    decreases |requests|
  {
    if requests == [] then outstanding
    else
      var (next, served) := Serve(env, session, requests[0]);
      Outstanding(env, next, requests[1..], OutstandingAfter(outstanding, requests[0], served))
  }

  lemma StartPending(env: Env, conversationId: string, system: string, s: LoopState)
    requires FreshModel(env)
    ensures var e := StartLoop(env, conversationId, system, s);
      e.Ended? ==> Pending(e.s.messages) == Pending(s.messages) + AwaitingOf(e)
  {
    hide RunLoop;
    var f := Frame(conversationId, system, env.clock(s.meter.readings));
    LoopPending(env, f, s.(meter := s.meter.(readings := s.meter.readings + 1)));
  }

  lemma ApprovePending(env: Env, session: Session, jobs: seq<Job>)
    requires FreshModel(env) && JobCalls(jobs) == Pending(session.history)
    ensures var e := ApproveEnding(env, session, jobs);
      e.Ended? ==> Pending(e.s.messages) == AwaitingOf(e)
  {
    var done := AnswerJobs(env, Decided, jobs, ApproveStart(session));
    if done.error.None? {
      ApprovalClears(env, session, jobs);
      StartPending(env, session.conversationId, env.defaultSystem, done.s);
    }
  }

  lemma ServePending(env: Env, session: Session, request: Request)
    requires FreshModel(env)
    ensures var (next, served) := Serve(env, session, request);
      Pending(next.history) == OutstandingAfter(Pending(session.history), request, served)
  {
    match request
    case Chat(text, system) =>
      UserMessagePending(session.history, text);
      StartPending(env, session.conversationId, system.GetOr(env.defaultSystem), ChatStart(session, text));
    case Approve(decisions) =>
      var checked := CheckApproval(env.host.registry, session.history, decisions);
      if checked.Jobs? {
        AcceptedJobs(env.host.registry, session.history, decisions);
        ApprovePending(env, session, checked.jobs);
      }
  }

  lemma UserMessagePending(history: seq<ChatMessage>, text: string)
    ensures Pending(history + [UserMessage(text)]) == Pending(history)
    ensures Answered(history + [UserMessage(text)]) == Answered(history)
    ensures Calls(history + [UserMessage(text)]) == Calls(history)
  {
    var more := [UserMessage(text)];
    assert Calls(more) == CallsOf(more[0]) + Calls(more[1..]);
    assert Answered(more) == {};
    PendingAppend(history, more);
    CallsConcat(history, more);
    AnsweredConcat(history, more);
    UnansweredNone(Pending(history), {});
  }

  /** Over every run with new ids, the pending calls recomputed from the stored
      history are exactly the outstanding approvals, in order. */
  lemma {:induction false} PendingIsOutstanding(env: Env, session: Session, requests: seq<Request>)
    requires FreshModel(env)
    ensures Pending(Run(env, session, requests).history)
         == Outstanding(env, session, requests, Pending(session.history))
    decreases |requests|
  {
    if requests != [] {
      ServePending(env, session, requests[0]);
      PendingIsOutstanding(env, Serve(env, session, requests[0]).0, requests[1..]);
    }
  }

  /** A request that ends pauses exactly when it awaits some call. */
  lemma {:induction false} LoopStatus(env: Env, f: Frame, s: LoopState)
    ensures var e := RunLoop(env, f, s);
      e.Ended? ==>
        && e.status == (if e.response.awaitingApproval.Some? then PAUSED else COMPLETED)
        && (e.response.awaitingApproval.Some? ==> e.response.awaitingApproval.value != [])
    decreases env.budget.maxIterations - s.acc.iterations
  {
    if s.acc.iterations < env.budget.maxIterations {
      IterateAdvances(env, f, s);
      if Iterate(env, f, s).Continue? {
        LoopStatus(env, f, Iterate(env, f, s).s);
      }
    }
  }

  lemma StartStatus(env: Env, conversationId: string, system: string, s: LoopState)
    ensures var e := StartLoop(env, conversationId, system, s);
      e.Ended? ==>
        && e.status == (if e.response.awaitingApproval.Some? then PAUSED else COMPLETED)
        && (e.response.awaitingApproval.Some? ==> e.response.awaitingApproval.value != [])
  {
    hide RunLoop;
    var f := Frame(conversationId, system, env.clock(s.meter.readings));
    LoopStatus(env, f, s.(meter := s.meter.(readings := s.meter.readings + 1)));
  }

  /** After a chat that completes, every stored call is paired with an answer
      exactly when no approval was outstanding before it: a chat does not look
      at the status of the conversation it continues. */
  lemma CompletedIsPairedExactly(env: Env, session: Session, text: string, system: Option<string>)
    requires FreshModel(env)
    requires Serve(env, session, Chat(text, system)).1.Responded?
    requires Serve(env, session, Chat(text, system)).0.status == COMPLETED
    ensures Pending(Serve(env, session, Chat(text, system)).0.history) == [] <==> Pending(session.history) == []
  {
    ServePending(env, session, Chat(text, system));
    StartStatus(env, session.conversationId, system.GetOr(env.defaultSystem), ChatStart(session, text));
  }

  /** A model that always ends its turn without calling a tool. */
  function QuietEnv(registry: Registry): Env {
    Env(Host(registry, json => "", TenantScope.Context(None, None)), [],
        (n, request) => Reply(LlmResponse("done", [], EndTurn, Usage(1, 1))),
        n => 0, LoopBudget(10, 200000, 120000), 3, "")
  }

  lemma QuietLoop(registry: Registry, f: Frame, s: LoopState)
    requires s.acc == Fresh(0) && f.startTime == 0
    ensures var e := RunLoop(QuietEnv(registry), f, s);
      e.Ended? && e.status == COMPLETED && e.s.messages == s.messages && e.response.awaitingApproval.None?
  {
    var env := QuietEnv(registry);
    assert Budget(env, f, s).None?;
    var request := RequestOf(env, f, s.messages);
    assert env.llm(s.meter.attempts, request).Reply?;
    assert CallLlm(env, request, s.meter.attempts).outcome == env.llm(s.meter.attempts, request);
  }

  function PausedHistory(call: ToolCall): seq<ChatMessage> {
    [UserMessage("delete it"), AssistantMessage("", [call])]
  }

  lemma PausedHistoryPending(call: ToolCall)
    ensures Pending(PausedHistory(call)) == [call]
  {
    var history := PausedHistory(call);
    assert history == [history[0]] + [history[1]];
    CallsConcat([history[0]], [history[1]]);
    assert Calls([history[0]]) == CallsOf(history[0]) + Calls([]);
    assert Calls([history[1]]) == CallsOf(history[1]) + Calls([]);
    assert Calls(history) == [call];
    assert Answered(history) == {} by {
      assert forall m :: m in history ==> m.role != ToolRole;
    }
    UnansweredNone([call], {});
  }

  /** The failing case, on a concrete conversation: paused with one call, chatted
      to, completed, and the call still unanswered. */
  lemma ChatStrandsAPausedCall(registry: Registry, call: ToolCall, store: Tickets.Store)
    ensures var paused := Session("c", PausedHistory(call), PAUSED, store, Meter(0, 0, 0), []);
      var (next, served) := Serve(QuietEnv(registry), paused, Chat("hello", None));
      && served.Responded? && next.status == COMPLETED
      && Pending(paused.history) == Pending(next.history) == [call]
  {
    var paused := Session("c", PausedHistory(call), PAUSED, store, Meter(0, 0, 0), []);
    var s := ChatStart(paused, "hello");
    QuietLoop(registry, Frame("c", "", 0), s.(meter := Meter(0, 0, 1)));
    PausedHistoryPending(call);
    UserMessagePending(PausedHistory(call), "hello");
  }
}
