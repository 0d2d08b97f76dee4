/**
 The arithmetic of the loop: how often the model is asked and attempted, how many
 tokens a request can use, how long it can run, and how long retrying sleeps.
 */
module Budgets {
  import opened Prelude
  import opened LlmTypes
  import opened Tools
  import opened AgentLoop
  import opened AgentShape

  // --------------------------------------------------------------- retrying

  ghost predicate FailsAt(env: Env, request: LlmRequest, n: nat) {
    env.llm(n, request).Fails?
  }

  /** The first `count` attempts after `used` ones fail. */
  ghost predicate AllFail(env: Env, request: LlmRequest, used: nat, count: nat) {
    forall n: nat :: used <= n < used + count ==> FailsAt(env, request, n)
  }

  /** After `used` attempts, the first success comes after `failures` failures. */
  ghost predicate FirstSuccess(env: Env, request: LlmRequest, used: nat, failures: nat) {
    AllFail(env, request, used, failures) && env.llm(used + failures, request).Reply?
  }

  lemma {:induction false} RetryFrom(env: Env, request: LlmRequest, used: nat, attempt: nat, failures: nat,
                                     lastError: string)
    requires 1 <= attempt && attempt + failures <= env.maxRetries && FirstSuccess(env, request, used, failures)
    ensures AttemptFrom(env, request, used, attempt, lastError)
         == Attempted(env.llm(used + failures, request), failures + 1,
                      500 * (Pow2(attempt + failures - 1) - Pow2(attempt - 1)))
    decreases failures
  {
    if failures > 0 {
      assert FailsAt(env, request, used);
      RetryFrom(env, request, used + 1, attempt + 1, failures - 1, env.llm(used, request).error);
    }
  }

  lemma {:induction false} GiveUpFrom(env: Env, request: LlmRequest, used: nat, attempt: nat, left: nat,
                                      lastError: string)
    requires 1 <= attempt && attempt + left == env.maxRetries && AllFail(env, request, used, left + 1)
    ensures AttemptFrom(env, request, used, attempt, lastError)
         == Attempted(env.llm(used + left, request), left + 1, 500 * (Pow2(attempt + left - 1) - Pow2(attempt - 1)))
    decreases left
  {
    assert FailsAt(env, request, used);
    if left > 0 {
      GiveUpFrom(env, request, used + 1, attempt + 1, left - 1, env.llm(used, request).error);
    }
  }

  /** Retrying is "first success": the first successful attempt within the limit is
      returned, after exactly that many identical requests; if all fail, the last
      error is rethrown; if none is allowed, a fixed error is. The sleep is the
      doubling backoff between the attempts made. */
  lemma RetryIsFirstSuccess(env: Env, request: LlmRequest, used: nat)
    ensures forall k: nat :: k < env.maxRetries && FirstSuccess(env, request, used, k) ==>
      CallLlm(env, request, used) == Attempted(env.llm(used + k, request), k + 1, 500 * (Pow2(k) - 1))
    ensures 1 <= env.maxRetries && AllFail(env, request, used, env.maxRetries) ==>
      CallLlm(env, request, used)
        == Attempted(env.llm(used + env.maxRetries - 1, request), env.maxRetries, 500 * (Pow2(env.maxRetries - 1) - 1))
    ensures env.maxRetries < 1 ==>
      CallLlm(env, request, used) == Attempted(Fails("LLM call failed after retries"), 0, 0)
  {
    forall k: nat | k < env.maxRetries && FirstSuccess(env, request, used, k)
      ensures CallLlm(env, request, used) == Attempted(env.llm(used + k, request), k + 1, 500 * (Pow2(k) - 1))
    {
      RetryFrom(env, request, used, 1, k, NO_ATTEMPT);
    }
    if 1 <= env.maxRetries && AllFail(env, request, used, env.maxRetries) {
      GiveUpFrom(env, request, used, 1, env.maxRetries - 1, NO_ATTEMPT);
    }
  }

  /** One of the cases of `RetryIsFirstSuccess` always applies. */
  lemma {:induction false} SucceedsOrAllFail(env: Env, request: LlmRequest, used: nat, count: nat)
    ensures AllFail(env, request, used, count) || exists k: nat :: k < count && FirstSuccess(env, request, used, k)
  {
    if count > 0 {
      SucceedsOrAllFail(env, request, used, count - 1);
      if AllFail(env, request, used, count - 1) && !AllFail(env, request, used, count) {
        assert FirstSuccess(env, request, used, count - 1);
      }
    }
  }

  lemma {:induction false} AttemptsBounded(env: Env, request: LlmRequest, used: nat, attempt: nat, lastError: string)
    requires attempt >= 1
    ensures AttemptFrom(env, request, used, attempt, lastError).attempts <= Max(0, env.maxRetries + 1 - attempt)
    decreases env.maxRetries + 1 - attempt
  {
    if attempt <= env.maxRetries && env.llm(used, request).Fails? {
      AttemptsBounded(env, request, used + 1, attempt + 1, env.llm(used, request).error);
    }
  }

  /** How many more attempts the asks made so far allow. */
  function Slack(env: Env, meter: Meter): int {
    meter.asks * Max(0, env.maxRetries) - meter.attempts
  }

  lemma SlackStep(env: Env, m: Meter, m': Meter)
    requires m'.asks == m.asks + 1 && m'.attempts <= m.attempts + Max(0, env.maxRetries)
    ensures Slack(env, m') >= Slack(env, m)
  {
    Distribute(m.asks, 1, Max(0, env.maxRetries));
  }

  lemma Distribute(a: int, b: int, c: int)
    ensures (a + b) * c == a * c + b * c
  {
  }

  // ------------------------------------------------------------ one iteration

  /** No reply uses more than `most` tokens. */
  ghost predicate TokensAtMost(env: Env, most: nat) {
    forall n, request :: env.llm(n, request).Reply? ==> env.llm(n, request).response.usage.Total() <= most
  }

  lemma BatchKeeps(env: Env, f: Frame, s: LoopState, r: LlmResponse)
    ensures var s' := StateOf(Batch(env, f, s, r));
      s'.acc.iterations == s.acc.iterations && s'.acc.usage == s.acc.usage && s'.meter == s.meter
  {
    var registry := env.host.registry;
    var readJobs := RunAll(ReadOnlyCalls(registry, r.toolCalls));
    var writeJobs := RunAll(MutatingCalls(registry, r.toolCalls));
    AnswerJobsKeeps(env, ReadOnly, readJobs, Replied(s, r));
    AnswerJobsKeeps(env, Mutating, writeJobs, AnswerJobs(env, ReadOnly, readJobs, Replied(s, r)).s);
  }

  /** An iteration either stops on the budget without asking, or asks exactly once
      and uses one iteration, whatever the model answers. */
  lemma IterateMeters(env: Env, f: Frame, s: LoopState)
    ensures var s' := StateOf(Iterate(env, f, s));
      if Budget(env, f, s).Some? then
        && Iterate(env, f, s).Stop?
        && s'.acc == s.acc
        && s'.meter == s.meter.(readings := s.meter.readings + if ReadsClock(env.budget, s.acc) then 1 else 0)
      else
        && s'.acc.iterations == s.acc.iterations + 1
        && s'.meter.asks == s.meter.asks + 1
        && s.meter.attempts <= s'.meter.attempts <= s.meter.attempts + Max(0, env.maxRetries)
        && s'.meter.readings == s.meter.readings + 1
  {
    if Budget(env, f, s).None? {
      AttemptsBounded(env, RequestOf(env, f, s.messages), s.meter.attempts, 1, NO_ATTEMPT);
      if Asking(env, f, s).outcome.Reply? {
        var r := Asking(env, f, s).outcome.response;
        BatchKeeps(env, f, AfterReply(AfterAsk(env, f, AfterCheck(env, s)), r), r);
      }
    }
  }

  /** The tokens of one iteration: nothing without asking, else at most one reply
      on top of less than the budget. */
  lemma IterateTokens(env: Env, f: Frame, s: LoopState, most: nat)
    requires TokensAtMost(env, most)
    ensures var s' := StateOf(Iterate(env, f, s));
      if Budget(env, f, s).Some? then s'.acc.usage == s.acc.usage
      else
        && s.acc.usage.Total() < env.budget.maxTotalTokens
        && s'.acc.usage.Total() <= s.acc.usage.Total() + most
  {
    if Budget(env, f, s).None? {
      ReplyComesFromModel(env, RequestOf(env, f, s.messages), s.meter.attempts, 1, NO_ATTEMPT);
      if Asking(env, f, s).outcome.Reply? {
        var r := Asking(env, f, s).outcome.response;
        BatchKeeps(env, f, AfterReply(AfterAsk(env, f, AfterCheck(env, s)), r), r);
      }
    }
  }

  // ------------------------------------------------------------------ the loop

  lemma {:induction false} LoopAsks(env: Env, f: Frame, s: LoopState)
    ensures var s' := RunLoop(env, f, s).s;
      0 <= s'.meter.asks - s.meter.asks <= Max(0, env.budget.maxIterations - s.acc.iterations)
    decreases env.budget.maxIterations - s.acc.iterations
  {
    if s.acc.iterations < env.budget.maxIterations {
      IterateAdvances(env, f, s);
      IterateMeters(env, f, s);
      if Iterate(env, f, s).Continue? {
        LoopAsks(env, f, Iterate(env, f, s).s);
      }
    }
  }

  /** Tokens are checked before each ask, so only the last reply can exceed the budget. */
  lemma {:induction false} LoopUsage(env: Env, f: Frame, s: LoopState, most: nat)
    requires TokensAtMost(env, most)
    ensures var used := RunLoop(env, f, s).s.acc.usage.Total();
      used == s.acc.usage.Total() || used <= env.budget.maxTotalTokens - 1 + most
    decreases env.budget.maxIterations - s.acc.iterations
  {
    if s.acc.iterations < env.budget.maxIterations {
      IterateAdvances(env, f, s);
      IterateTokens(env, f, s, most);
      if Iterate(env, f, s).Continue? {
        LoopUsage(env, f, Iterate(env, f, s).s, most);
      }
    }
  }

  // -------------------------------------------------------------- whole runs

  function Count(requests: seq<AgentLoop.Request>, chats: bool): nat {
    if requests == [] then 0 else (if requests[0].Chat? == chats then 1 else 0) + Count(requests[1..], chats)
  }

  /** The most a request may ask: an approval starts with one iteration used. */
  function MostAsks(env: Env, request: AgentLoop.Request): nat {
    Max(0, env.budget.maxIterations - if request.Chat? then 0 else 1)
  }

  lemma StartAsks(env: Env, conversationId: string, system: string, s: LoopState)
    ensures var s' := StartLoop(env, conversationId, system, s).s;
      0 <= s'.meter.asks - s.meter.asks <= Max(0, env.budget.maxIterations - s.acc.iterations)
  {
    hide RunLoop;
    var f := Frame(conversationId, system, env.clock(s.meter.readings));
    LoopAsks(env, f, s.(meter := s.meter.(readings := s.meter.readings + 1)));
  }

  lemma ApproveAsks(env: Env, session: Session, decisions: seq<Decision>)
    ensures var next := Serve(env, session, Approve(decisions)).0;
      0 <= next.meter.asks - session.meter.asks <= MostAsks(env, Approve(decisions))
  {
    var checked := CheckApproval(env.host.registry, session.history, decisions);
    if checked.Jobs? {
      var done := AnswerJobs(env, Decided, checked.jobs, ApproveStart(session));
      AnswerJobsKeeps(env, Decided, checked.jobs, ApproveStart(session));
      if done.error.None? {
        StartAsks(env, session.conversationId, env.defaultSystem, done.s);
      }
    }
  }

  /** How often one request asks the model. */
  lemma ServeAsks(env: Env, session: Session, request: AgentLoop.Request)
    ensures var next := Serve(env, session, request).0;
      0 <= next.meter.asks - session.meter.asks <= MostAsks(env, request)
  {
    match request
    case Chat(text, system) =>
      StartAsks(env, session.conversationId, system.GetOr(env.defaultSystem), ChatStart(session, text));
    case Approve(decisions) => ApproveAsks(env, session, decisions);
  }

  lemma {:induction false} LoopReportsUsage(env: Env, f: Frame, s: LoopState)
    ensures var e := RunLoop(env, f, s);
      e.Ended? ==> e.response.usage == e.s.acc.usage && e.response.iterations == e.s.acc.iterations
    decreases env.budget.maxIterations - s.acc.iterations
  {
    if s.acc.iterations < env.budget.maxIterations {
      IterateAdvances(env, f, s);
      if Iterate(env, f, s).Continue? {
        LoopReportsUsage(env, f, Iterate(env, f, s).s);
      }
    }
  }

  ghost predicate UsageWithin(env: Env, most: nat, response: ChatResponse) {
    response.usage.Total() == 0 || response.usage.Total() <= env.budget.maxTotalTokens - 1 + most
  }

  lemma StartUsage(env: Env, conversationId: string, system: string, s: LoopState, most: nat)
    requires TokensAtMost(env, most) && s.acc.usage.Total() == 0
    ensures var e := StartLoop(env, conversationId, system, s);
      e.Ended? ==> UsageWithin(env, most, e.response)
  {
    var f := Frame(conversationId, system, env.clock(s.meter.readings));
    LoopReportsUsage(env, f, s.(meter := s.meter.(readings := s.meter.readings + 1)));
    LoopUsage(env, f, s.(meter := s.meter.(readings := s.meter.readings + 1)), most);
  }

  lemma ApproveUsage(env: Env, session: Session, jobs: seq<Job>, most: nat)
    requires TokensAtMost(env, most)
    ensures var e := ApproveEnding(env, session, jobs);
      e.Ended? ==> UsageWithin(env, most, e.response)
  {
    var done := AnswerJobs(env, Decided, jobs, ApproveStart(session));
    if done.error.None? {
      UnusedAfterAnswers(env, session, jobs);
      StartUsage(env, session.conversationId, env.defaultSystem, done.s, most);
    }
  }

  lemma UnusedAfterAnswers(env: Env, session: Session, jobs: seq<Job>)
    ensures AnswerJobs(env, Decided, jobs, ApproveStart(session)).s.acc.usage.Total() == 0
  {
    AnswerJobsKeeps(env, Decided, jobs, ApproveStart(session));
  }

  /** The tokens a response reports stay below the budget plus one reply. */
  lemma ServeUsage(env: Env, session: Session, request: AgentLoop.Request, most: nat)
    requires TokensAtMost(env, most)
    ensures var served := Serve(env, session, request).1;
      served.Responded? ==> UsageWithin(env, most, served.response)
  {
    match request
    case Chat(text, system) =>
      StartUsage(env, session.conversationId, system.GetOr(env.defaultSystem), ChatStart(session, text), most);
    case Approve(decisions) =>
      var checked := CheckApproval(env.host.registry, session.history, decisions);
      if checked.Jobs? {
        ApproveUsage(env, session, checked.jobs, most);
      }
  }

  function MostRunAsks(env: Env, requests: seq<AgentLoop.Request>): nat {
    if requests == [] then 0 else MostAsks(env, requests[0]) + MostRunAsks(env, requests[1..])
  }

  lemma {:induction false} MostRunAsksCounts(env: Env, requests: seq<AgentLoop.Request>)
    ensures MostRunAsks(env, requests)
         == Count(requests, true) * Max(0, env.budget.maxIterations)
            + Count(requests, false) * Max(0, env.budget.maxIterations - 1)
  {
    if requests != [] {
      MostRunAsksCounts(env, requests[1..]);
      Distribute(1, Count(requests[1..], true), Max(0, env.budget.maxIterations));
      Distribute(1, Count(requests[1..], false), Max(0, env.budget.maxIterations - 1));
    }
  }

  lemma {:induction false} RunAsks(env: Env, session: Session, requests: seq<AgentLoop.Request>)
    ensures 0 <= Run(env, session, requests).meter.asks - session.meter.asks <= MostRunAsks(env, requests)
    decreases |requests|
  {
    if requests != [] {
      ServeAsks(env, session, requests[0]);
      RunAsks(env, Serve(env, session, requests[0]).0, requests[1..]);
    }
  }

  lemma {:induction false} LoopSlack(env: Env, f: Frame, s: LoopState)
    ensures Slack(env, RunLoop(env, f, s).s.meter) >= Slack(env, s.meter)
    decreases env.budget.maxIterations - s.acc.iterations
  {
    if s.acc.iterations < env.budget.maxIterations {
      IterateAdvances(env, f, s);
      IterateMeters(env, f, s);
      var step := Iterate(env, f, s);
      if Budget(env, f, s).None? {
        SlackStep(env, s.meter, StateOf(step).meter);
      }
      if step.Continue? {
        LoopSlack(env, f, step.s);
      }
    }
  }

  lemma StartSlack(env: Env, conversationId: string, system: string, s: LoopState)
    ensures Slack(env, StartLoop(env, conversationId, system, s).s.meter) >= Slack(env, s.meter)
  {
    hide RunLoop;
    var f := Frame(conversationId, system, env.clock(s.meter.readings));
    LoopSlack(env, f, s.(meter := s.meter.(readings := s.meter.readings + 1)));
  }

  lemma ApproveSlack(env: Env, session: Session, jobs: seq<Job>)
    ensures Slack(env, ApproveEnding(env, session, jobs).s.meter) >= Slack(env, session.meter)
  {
    var done := AnswerJobs(env, Decided, jobs, ApproveStart(session));
    AnswerJobsKeeps(env, Decided, jobs, ApproveStart(session));
    if done.error.None? {
      StartSlack(env, session.conversationId, env.defaultSystem, done.s);
    }
  }

  lemma ServeSlack(env: Env, session: Session, request: AgentLoop.Request)
    ensures Slack(env, Serve(env, session, request).0.meter) >= Slack(env, session.meter)
  {
    match request
    case Chat(text, system) =>
      StartSlack(env, session.conversationId, system.GetOr(env.defaultSystem), ChatStart(session, text));
    case Approve(decisions) =>
      var checked := CheckApproval(env.host.registry, session.history, decisions);
      if checked.Jobs? {
        ApproveSlack(env, session, checked.jobs);
      }
  }

  lemma {:induction false} RunSlack(env: Env, session: Session, requests: seq<AgentLoop.Request>)
    ensures Slack(env, Run(env, session, requests).meter) >= Slack(env, session.meter)
    decreases |requests|
  {
    if requests != [] {
      ServeSlack(env, session, requests[0]);
      RunSlack(env, Serve(env, session, requests[0]).0, requests[1..]);
    }
  }

  /** A run of c chats and k approvals asks the model at most c·M + k·(M-1) times,
      and attempts it at most that many times the retry limit. */
  lemma RunWithinBudget(env: Env, session: Session, requests: seq<AgentLoop.Request>)
    ensures var end := Run(env, session, requests);
      var bound := Count(requests, true) * Max(0, env.budget.maxIterations)
                 + Count(requests, false) * Max(0, env.budget.maxIterations - 1);
      && end.meter.asks - session.meter.asks <= bound
      && end.meter.attempts - session.meter.attempts <= bound * Max(0, env.maxRetries)
  {
    RunAsks(env, session, requests);
    RunSlack(env, session, requests);
    MostRunAsksCounts(env, requests);
    var end := Run(env, session, requests);
    var asked, bound := end.meter.asks - session.meter.asks, MostRunAsks(env, requests);
    var r := Max(0, env.maxRetries);
    Distribute(session.meter.asks, asked, r);
    Distribute(asked, bound - asked, r);
    NonNegative(bound - asked, r);
  }

  lemma NonNegative(a: nat, b: nat)
    ensures a * b >= 0
  {
  }

  // -------------------------------------------------------------- wall clock

  /** Each clock reading from `first` up to `last` comes at most `cost` after the one before it. */
  ghost predicate IterationsCost(env: Env, first: nat, last: nat, cost: nat) {
    forall i: nat :: first <= i < last ==> env.clock(i + 1) <= env.clock(i) + cost
  }

  /** The last reading a loop that ended in `e` made. */
  function LastReading(e: Ending): nat {
    if e.s.meter.readings == 0 then 0 else e.s.meter.readings - 1
  }

  /** `time` may be when the loop ends: at the reading that stopped it, or at most
      one iteration after its last reading. */
  ghost predicate EndsAt(env: Env, e: Ending, time: int, cost: nat) {
    if e.Ended? && e.response.note.WallClockExceeded? then time == env.clock(LastReading(e))
    else time <= env.clock(LastReading(e)) + cost
  }

  lemma {:induction false} ReadingsGrow(env: Env, f: Frame, s: LoopState)
    ensures RunLoop(env, f, s).s.meter.readings >= s.meter.readings
    decreases env.budget.maxIterations - s.acc.iterations
  {
    if s.acc.iterations < env.budget.maxIterations {
      IterateAdvances(env, f, s);
      IterateMeters(env, f, s);
      if Iterate(env, f, s).Continue? {
        ReadingsGrow(env, f, Iterate(env, f, s).s);
      }
    }
  }

  /** The clock reading of an iteration: passed by those that ask, and the last one of a loop it stops. */
  lemma IterateReadings(env: Env, f: Frame, s: LoopState)
    ensures var step := Iterate(env, f, s);
      var now := s.meter.readings;
      if Budget(env, f, s).Some? then
        && step.Stop? && step.ending.Ended?
        && (step.ending.response.note.WallClockExceeded? <==> ReadsClock(env.budget, s.acc))
        && step.ending.s.meter.readings == now + if ReadsClock(env.budget, s.acc) then 1 else 0
      else
        && env.clock(now) - f.startTime <= env.budget.maxWallClockMs - 1
        && StateOf(step).meter.readings == now + 1
        && (step.Stop? && step.ending.Ended? ==> !step.ending.response.note.WallClockExceeded?)
  {
    if Budget(env, f, s).None? && Asking(env, f, s).outcome.Reply? {
      var r := Asking(env, f, s).outcome.response;
      BatchKeeps(env, f, AfterReply(AfterAsk(env, f, AfterCheck(env, s)), r), r);
    }
  }

  /** The time a loop ends when this iteration stops it. */
  lemma StopInTime(env: Env, f: Frame, s: LoopState, cost: nat, time: int)
    requires s.meter.readings > 0
    requires env.clock(s.meter.readings - 1) - f.startTime <= env.budget.maxWallClockMs - 1
    requires Iterate(env, f, s).Stop?
    requires var e := Iterate(env, f, s).ending;
      IterationsCost(env, s.meter.readings - 1, LastReading(e), cost) && EndsAt(env, e, time, cost)
    ensures time - f.startTime <= env.budget.maxWallClockMs - 1 + cost
  {
    var now := s.meter.readings;
    IterateReadings(env, f, s);
    if Budget(env, f, s).Some? && ReadsClock(env.budget, s.acc) {
      assert env.clock(now - 1 + 1) <= env.clock(now - 1) + cost;
    }
  }

  lemma {:induction false} LoopEndsInTime(env: Env, f: Frame, s: LoopState, cost: nat, time: int)
    requires s.meter.readings > 0
    requires env.clock(s.meter.readings - 1) - f.startTime <= env.budget.maxWallClockMs - 1
    requires IterationsCost(env, s.meter.readings - 1, LastReading(RunLoop(env, f, s)), cost)
    requires EndsAt(env, RunLoop(env, f, s), time, cost)
    ensures time - f.startTime <= env.budget.maxWallClockMs - 1 + cost
    decreases env.budget.maxIterations - s.acc.iterations
  {
    if s.acc.iterations < env.budget.maxIterations {
      IterateAdvances(env, f, s);
      match Iterate(env, f, s)
      case Stop(_) => StopInTime(env, f, s, cost, time);
      case Continue(next) =>
        IterateReadings(env, f, s);
        ReadingsGrow(env, f, next);
        LoopEndsInTime(env, f, next, cost, time);
    }
  }

  /** With a positive wall-clock budget and iterations costing at most `cost` ms, a
      loop ends less than the budget plus one iteration after its start. Only the
      readings of this very loop are constrained: however long a human took to
      approve, and whatever the clock does between requests, plays no part. */
  lemma LoopsEndInTime(env: Env, conversationId: string, system: string, s: LoopState, cost: nat, time: int)
    requires env.budget.maxWallClockMs > 0
    requires var e := StartLoop(env, conversationId, system, s);
      IterationsCost(env, s.meter.readings, LastReading(e), cost) && EndsAt(env, e, time, cost)
    ensures time - env.clock(s.meter.readings) <= env.budget.maxWallClockMs - 1 + cost
  {
    hide RunLoop;
    var f := Frame(conversationId, system, env.clock(s.meter.readings));
    var started := s.(meter := s.meter.(readings := s.meter.readings + 1));
    LoopEndsInTime(env, f, started, cost, time);
  }
}
