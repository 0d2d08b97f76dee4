/**
 What a returned request reports is what happened: replaying the answered calls
 one after the other from the initial ticket store gives every reported result,
 the final store, and the tool messages appended to the history.
 */
module Audit {
  import opened Prelude
  import opened LlmTypes
  import opened Tools
  import opened AgentLoop
  import opened AgentShape
  import opened PendingCalls

  function ToolMessages(messages: seq<ChatMessage>): seq<ChatMessage> {
    if messages == [] then []
    else (if messages[0].role == ToolRole then [messages[0]] else []) + ToolMessages(messages[1..])
  }

  lemma {:induction false} ToolMessagesConcat(a: seq<ChatMessage>, b: seq<ChatMessage>)
    ensures ToolMessages(a + b) == ToolMessages(a) + ToolMessages(b)
  {
    if a == [] {
      assert a + b == b;
    } else {
      ToolMessagesConcat(a[1..], b);
      HeadOfSum(a, b);
      Associative(if a[0].role == ToolRole then [a[0]] else [], ToolMessages(a[1..]), ToolMessages(b));
    }
  }

  lemma {:induction false} AnswersAreToolMessages(host: Host, jobs: seq<Job>, results: seq<ToolResult>)
    requires |jobs| == |results|
    ensures ToolMessages(Answers(host, jobs, results)) == Answers(host, jobs, results)
    decreases |jobs|
  {
    if jobs != [] {
      AnswersAreToolMessages(host, jobs[1..], results[1..]);
    }
  }

  /** Going from `s` to `s'` accumulated exactly the replay of `jobs`. */
  ghost predicate Audited(env: Env, s: LoopState, s': LoopState, jobs: seq<Job>) {
    var replayed := Replay(env.host, s.store, jobs);
    && s'.acc.toolCalls == s.acc.toolCalls + JobCalls(jobs)
    && s'.acc.toolResults == s.acc.toolResults + Records(jobs, replayed.results)
    && s'.store == replayed.store
    && ToolMessages(s'.messages) == ToolMessages(s.messages) + Answers(env.host, jobs, replayed.results)
  }

  lemma AuditedTwice(env: Env, s0: LoopState, s1: LoopState, s2: LoopState, a: seq<Job>, b: seq<Job>)
    requires Audited(env, s0, s1, a) && Audited(env, s1, s2, b)
    ensures Audited(env, s0, s2, a + b)
  {
    ReplayConcat(env.host, s0.store, a, b);
    var ra, rb := Replay(env.host, s0.store, a).results, Replay(env.host, s1.store, b).results;
    AbsorbedParts(env.host, a, b, ra, rb);
    assert Replay(env.host, s0.store, a + b).results == ra + rb;
    Associative(s0.acc.toolCalls, JobCalls(a), JobCalls(b));
    Associative(s0.acc.toolResults, Records(a, ra), Records(b, rb));
    Associative(ToolMessages(s0.messages), Answers(env.host, a, ra), Answers(env.host, b, rb));
  }

  lemma AuditedNothing(env: Env, s: LoopState, s': LoopState)
    requires s'.acc.toolCalls == s.acc.toolCalls && s'.acc.toolResults == s.acc.toolResults
    requires s'.store == s.store && ToolMessages(s'.messages) == ToolMessages(s.messages)
    ensures Audited(env, s, s', [])
  {
  }

  lemma AbsorbedIsAudited(env: Env, mode: Mode, jobs: seq<Job>, s: LoopState, s': LoopState)
    requires s' == Absorbed(env, mode, jobs, Replay(env.host, s.store, jobs), s)
    ensures Audited(env, s, s', jobs)
  {
    var results := Replay(env.host, s.store, jobs).results;
    ToolMessagesConcat(s.messages, Answers(env.host, jobs, results));
    AnswersAreToolMessages(env.host, jobs, results);
  }

  lemma SafeIsAudited(env: Env, s: LoopState, r: LlmResponse)
    requires AnswerSafe(env, s, r).error.None?
    ensures Audited(env, s, AnswerSafe(env, s, r).s, SafeJobs(env, r))
  {
    SafeIsReplay(env, s, r);
    var head := [AssistantMessage(r.content, r.toolCalls)];
    ToolMessagesConcat(s.messages, head);
    assert ToolMessages(head) == [] + ToolMessages(head[1..]);
    AbsorbedIsAudited(env, ReadOnly, SafeJobs(env, r), Replied(s, r), AnswerSafe(env, s, r).s);
  }

  /** The calls the loop answers after state `s`, read off its end. */
  function NewCalls(s: LoopState, ending: Ending): seq<ToolCall>
    requires |s.acc.toolCalls| <= |ending.s.acc.toolCalls|
  {
    ending.s.acc.toolCalls[|s.acc.toolCalls|..]
  }

  /** The end of a loop: what it accumulated is audited, and its response reports it. */
  ghost predicate Reported(env: Env, s: LoopState, e: Ending) {
    && |s.acc.toolCalls| <= |e.s.acc.toolCalls|
    && Audited(env, s, e.s, RunAll(NewCalls(s, e)))
    && (e.Ended? ==>
          && e.response.toolCalls == e.s.acc.toolCalls + AwaitingOf(e)
          && e.response.toolResults == e.s.acc.toolResults)
  }

  lemma ReportedNothing(env: Env, s: LoopState, e: Ending)
    requires e.Ended?
    requires e.s.acc.toolCalls == s.acc.toolCalls && e.s.acc.toolResults == s.acc.toolResults
    requires e.s.store == s.store && e.s.messages == s.messages
    requires e.response.awaitingApproval.None?
    requires e.response.toolCalls == e.s.acc.toolCalls && e.response.toolResults == e.s.acc.toolResults
    ensures Reported(env, s, e)
  {
    assert NewCalls(s, e) == [];
    AuditedNothing(env, s, e.s);
  }

  lemma {:induction false} LoopReports(env: Env, f: Frame, s: LoopState)
    ensures var e := RunLoop(env, f, s);
      e.Ended? ==> Reported(env, s, e)
    decreases env.budget.maxIterations - s.acc.iterations
  {
    var e := RunLoop(env, f, s);
    if e.Ended? {
      if s.acc.iterations >= env.budget.maxIterations {
        ReportedNothing(env, s, e);
      } else {
        IterateAdvances(env, f, s);
        IterateCases(env, f, s);
        if HasBatch(env, f, s) {
          BatchReports(env, f, s);
        } else {
          ReportedNothing(env, s, e);
        }
      }
    }
  }

  lemma BatchReports(env: Env, f: Frame, s: LoopState)
    requires s.acc.iterations < env.budget.maxIterations
    requires HasBatch(env, f, s) && RunLoop(env, f, s).Ended?
    ensures Reported(env, s, RunLoop(env, f, s))
    decreases env.budget.maxIterations - s.acc.iterations, 0
  {
    IterateAdvances(env, f, s);
    IterateCases(env, f, s);
    var e := RunLoop(env, f, s);
    var s1, r := BatchStart(env, f, s), BatchReply(env, f, s);
    var step := Batch(env, f, s1, r);
    var done := AnswerSafe(env, s1, r).s;
    var calls := SafeCalls(env.host.registry, r.toolCalls);
    BatchShape(env, f, s1, r);
    SafeIsAudited(env, s1, r);
    SafeShape(env, s1, r);
    assert Audited(env, s, done, RunAll(calls));
    if step.Continue? {
      LoopReports(env, f, done);
      ReportedAfter(env, s, done, e, calls);
    } else {
      assert NewCalls(s, e) == calls;
    }
  }

  lemma ReportedAfter(env: Env, s: LoopState, done: LoopState, e: Ending, calls: seq<ToolCall>)
    requires Audited(env, s, done, RunAll(calls)) && Reported(env, done, e)
    requires done.acc.toolCalls == s.acc.toolCalls + calls
    ensures Reported(env, s, e)
  {
    var later := NewCalls(done, e);
    AuditedTwice(env, s, done, e.s, RunAll(calls), RunAll(later));
    RunAllConcat(calls, later);
    RunAllCalls(later);
    assert done.acc.toolCalls + later == e.s.acc.toolCalls;
    Associative(s.acc.toolCalls, calls, later);
    assert NewCalls(s, e) == calls + later;
  }

  lemma StartReports(env: Env, conversationId: string, system: string, s: LoopState)
    ensures var e := StartLoop(env, conversationId, system, s);
      e.Ended? ==> Reported(env, s, e)
  {
    hide RunLoop;
    var f := Frame(conversationId, system, env.clock(s.meter.readings));
    LoopReports(env, f, s.(meter := s.meter.(readings := s.meter.readings + 1)));
  }

  // ---------------------------------------------------------- one request

  /** How the answered calls of a returned request are to be replayed: those of an
      approval as decided, every other one by running it. */
  function AuditJobs(env: Env, session: Session, request: AgentLoop.Request, answered: seq<ToolCall>): seq<Job> {
    match request
    case Chat(_, _) => RunAll(answered)
    case Approve(decisions) =>
      var checked := CheckApproval(env.host.registry, session.history, decisions);
      if checked.Jobs? && |checked.jobs| <= |answered| then checked.jobs + RunAll(answered[|checked.jobs|..]) else []
  }

  /** An approval answers every decided call, before anything else. */
  ghost predicate DecidedFirst(env: Env, session: Session, request: AgentLoop.Request, jobs: seq<Job>) {
    request.Approve? ==>
      var checked := CheckApproval(env.host.registry, session.history, request.decisions);
      checked.Jobs? && checked.jobs <= jobs
  }

  /** `response` and `next` are what replaying the answered calls from `session` gives. */
  ghost predicate AuditsTo(env: Env, session: Session, request: AgentLoop.Request, next: Session,
                           response: ChatResponse)
  {
    && |response.toolResults| <= |response.toolCalls|
    && var answered := response.toolCalls[..|response.toolResults|];
       var jobs := AuditJobs(env, session, request, answered);
       var replayed := Replay(env.host, session.store, jobs);
       && JobCalls(jobs) == answered && DecidedFirst(env, session, request, jobs)
       && response.toolCalls == answered + response.awaitingApproval.GetOr([])
       && response.toolResults == Records(jobs, replayed.results)
       && next.store == replayed.store
       && ToolMessages(next.history) == ToolMessages(session.history) + Answers(env.host, jobs, replayed.results)
  }

  lemma {:induction false} RecordsLength(jobs: seq<Job>, results: seq<ToolResult>)
    requires |jobs| == |results|
    ensures |Records(jobs, results)| == |jobs| == |JobCalls(jobs)|
    decreases |jobs|
  {
    if jobs != [] {
      RecordsLength(jobs[1..], results[1..]);
    }
  }

  /** An audited end of a request, whose accumulators started empty. */
  lemma AuditedResponse(env: Env, s: LoopState, e: Ending, jobs: seq<Job>)
    requires s.acc.toolCalls == [] && s.acc.toolResults == []
    requires e.Ended? && Audited(env, s, e.s, jobs)
    requires e.response.toolCalls == e.s.acc.toolCalls + AwaitingOf(e) && e.response.toolResults == e.s.acc.toolResults
    ensures |e.response.toolResults| <= |e.response.toolCalls|
    ensures e.response.toolCalls[..|e.response.toolResults|] == JobCalls(jobs) == e.s.acc.toolCalls
    ensures e.response.toolResults == Records(jobs, Replay(env.host, s.store, jobs).results)
  {
    RecordsLength(jobs, Replay(env.host, s.store, jobs).results);
  }

  lemma ChatAudits(env: Env, session: Session, text: string, system: Option<string>)
    requires Serve(env, session, Chat(text, system)).1.Responded?
    ensures var (next, served) := Serve(env, session, Chat(text, system));
      AuditsTo(env, session, Chat(text, system), next, served.response)
  {
    hide RunLoop;
    var s := ChatStart(session, text);
    var e := ChatEnding(env, session, text, system);
    StartReports(env, session.conversationId, system.GetOr(env.defaultSystem), s);
    var jobs := RunAll(NewCalls(s, e));
    AuditedResponse(env, s, e, jobs);
    RunAllCalls(NewCalls(s, e));
    ToolMessagesConcat(session.history, [UserMessage(text)]);
    assert ToolMessages([UserMessage(text)]) == [] + ToolMessages([UserMessage(text)][1..]);
  }

  lemma ApproveReports(env: Env, session: Session, jobs: seq<Job>) returns (all: seq<Job>)
    requires ApproveEnding(env, session, jobs).Ended?
    ensures |jobs| <= |JobCalls(all)|
    ensures var e := ApproveEnding(env, session, jobs);
      && Audited(env, ApproveStart(session), e.s, all)
      && all == jobs + RunAll(JobCalls(all)[|jobs|..])
      && e.response.toolCalls == e.s.acc.toolCalls + AwaitingOf(e)
      && e.response.toolResults == e.s.acc.toolResults
  {
    var s := ApproveStart(session);
    var done := AnswerJobs(env, Decided, jobs, s).s;
    var e := ApproveEnding(env, session, jobs);
    AnswerJobsIsReplay(env, Decided, jobs, s);
    AbsorbedIsAudited(env, Decided, jobs, s, done);
    StartReports(env, session.conversationId, env.defaultSystem, done);
    var later := NewCalls(done, e);
    all := jobs + RunAll(later);
    AuditedTwice(env, s, done, e.s, jobs, RunAll(later));
    RunAllCalls(later);
    RecordsLength(jobs, Replay(env.host, s.store, jobs).results);
    var laterResults := Replay(env.host, done.store, RunAll(later)).results;
    AbsorbedParts(env.host, jobs, RunAll(later), Replay(env.host, s.store, jobs).results, laterResults);
    assert JobCalls(all)[|jobs|..] == later;
  }

  lemma ApproveAudits(env: Env, session: Session, decisions: seq<Decision>)
    requires Serve(env, session, Approve(decisions)).1.Responded?
    ensures var (next, served) := Serve(env, session, Approve(decisions));
      AuditsTo(env, session, Approve(decisions), next, served.response)
  {
    hide RunLoop;
    var jobs := CheckApproval(env.host.registry, session.history, decisions).jobs;
    var e := ApproveEnding(env, session, jobs);
    var all := ApproveReports(env, session, jobs);
    AuditedResponse(env, ApproveStart(session), e, all);
    assert AuditJobs(env, session, Approve(decisions), JobCalls(all)) == all;
  }

  /** Audit replay: every returned request reports exactly what replaying its
      answered calls in order gives, followed by the calls it awaits. */
  lemma ResponsesAudit(env: Env, session: Session, request: AgentLoop.Request)
    requires Serve(env, session, request).1.Responded?
    ensures AuditsTo(env, session, request, Serve(env, session, request).0, Serve(env, session, request).1.response)
  {
    match request
    case Chat(text, system) => ChatAudits(env, session, text, system);
    case Approve(decisions) => ApproveAudits(env, session, decisions);
  }
}
