/**
 What happens between the agent and the model in one request, told apart from the
 loop's own bookkeeping: what the model is shown and replies, what that costs, and
 how the response follows from it.
 */
module Story {
  import opened Prelude
  import opened LlmTypes
  import opened Tickets
  import opened Tools
  import opened AgentLoop
  import opened AgentShape
  import opened PendingCalls
  import opened Budgets
  import Approvals

  /** One time the model is asked: the history it is shown, and what came back after how many attempts. */
  datatype Exchange = Exchange(messages: seq<ChatMessage>, outcome: LlmOutcome, attempts: nat)

  /** The exchange a loop in state `s` makes. */
  function Now(env: Env, f: Frame, s: LoopState): Exchange {
    var call := CallLlm(env, LlmRequest(f.system, s.messages, env.tools), s.meter.attempts);
    Exchange(s.messages, call.outcome, call.attempts)
  }

  function Exchanges(env: Env, f: Frame, s: LoopState): seq<Exchange>
    decreases env.budget.maxIterations - s.acc.iterations
  {
    if s.acc.iterations >= env.budget.maxIterations || Budget(env, f, s).Some? then []
    else
      IterateAdvances(env, f, s);
      [Now(env, f, s)]
      + if Iterate(env, f, s).Continue? then Exchanges(env, f, Iterate(env, f, s).s) else []
  }

  /** The reply ends the turn: it is no batch of tool calls. */
  predicate EndsTurn(r: LlmResponse) {
    r.stopReason != ToolUse || r.toolCalls == []
  }

  // ------------------------------------------------------------------ tokens

  /** The tokens the model's replies really used. */
  function SpentIn(xs: seq<Exchange>): nat {
    if xs == [] then 0
    else (if xs[0].outcome.Reply? then xs[0].outcome.response.usage.inputTokens else 0) + SpentIn(xs[1..])
  }

  function SpentOut(xs: seq<Exchange>): nat {
    if xs == [] then 0
    else (if xs[0].outcome.Reply? then xs[0].outcome.response.usage.outputTokens else 0) + SpentOut(xs[1..])
  }

  /** What an iteration that asks counts: its iteration, and exactly its reply's tokens. */
  lemma IterateSpends(env: Env, f: Frame, s: LoopState)
    requires Budget(env, f, s).None?
    ensures var before, after := s.acc, StateOf(Iterate(env, f, s)).acc;
      && after.iterations == before.iterations + 1
      && after.usage.inputTokens == before.usage.inputTokens + SpentIn([Now(env, f, s)])
      && after.usage.outputTokens == before.usage.outputTokens + SpentOut([Now(env, f, s)])
  {
    var x := Now(env, f, s);
    assert [x][1..] == [];
    assert x.outcome == Asking(env, f, s).outcome;
    if x.outcome.Reply? {
      var r := x.outcome.response;
      BatchKeeps(env, f, AfterReply(AfterAsk(env, f, AfterCheck(env, s)), r), r);
    }
  }

  lemma SpentConcat(x: Exchange, xs: seq<Exchange>)
    ensures SpentIn([x] + xs) == SpentIn([x]) + SpentIn(xs) && SpentOut([x] + xs) == SpentOut([x]) + SpentOut(xs)
  {
    assert ([x] + xs)[1..] == xs && [x][1..] == [];
  }

  /** The loop counts exactly what its exchanges used, however it ends. */
  lemma {:induction false} LoopSpends(env: Env, f: Frame, s: LoopState)
    ensures var xs := Exchanges(env, f, s);
      var after := RunLoop(env, f, s).s.acc;
      && after.iterations == s.acc.iterations + |xs|
      && after.usage.inputTokens == s.acc.usage.inputTokens + SpentIn(xs)
      && after.usage.outputTokens == s.acc.usage.outputTokens + SpentOut(xs)
    decreases env.budget.maxIterations - s.acc.iterations
  {
    if s.acc.iterations < env.budget.maxIterations {
      IterateAdvances(env, f, s);
      if Budget(env, f, s).None? {
        IterateSpends(env, f, s);
        if Iterate(env, f, s).Continue? {
          LoopSpends(env, f, Iterate(env, f, s).s);
          SpentConcat(Now(env, f, s), Exchanges(env, f, Iterate(env, f, s).s));
        }
      }
    }
  }

  /** An iteration ends for its tokens exactly when the iteration limit is not
      reached and the tokens used so far are at least the budget; it reports them. */
  lemma TokensExceededExactly(env: Env, f: Frame, s: LoopState)
    ensures var step := Iterate(env, f, s);
      var used := s.acc.usage.inputTokens + s.acc.usage.outputTokens;
      && (step.Stop? && step.ending.Ended? && step.ending.response.note.TokensExceeded? <==>
            s.acc.iterations < env.budget.maxIterations && used >= env.budget.maxTotalTokens)
      && (step.Stop? && step.ending.Ended? && step.ending.response.note.TokensExceeded? ==>
            step.ending.response.note.total == used)
  {
  }

  // ---------------------------------------------------------------- responses

  /** A response with the counts of its loop, saying `note` for `reason`. */
  ghost predicate Says(f: Frame, e: Ending, note: Note, reason: StopReason, awaiting: Option<seq<ToolCall>>) {
    && e.Ended?
    && e.response.conversationId == f.conversationId
    && e.response.usage == e.s.acc.usage && e.response.iterations == e.s.acc.iterations
    && e.response.note == note && e.response.stopReason == reason && e.response.awaitingApproval == awaiting
    && (e.status == PAUSED <==> awaiting.Some?) && e.status != ACTIVE
  }

  /** The limit a loop stopped at: the first of iterations, tokens and time. */
  function Limit(env: Env, e: Ending): Note {
    if e.s.acc.iterations >= env.budget.maxIterations then IterationsReached
    else if e.s.acc.usage.inputTokens + e.s.acc.usage.outputTokens >= env.budget.maxTotalTokens
    then TokensExceeded(e.s.acc.usage.inputTokens + e.s.acc.usage.outputTokens)
    else WallClockExceeded
  }

  /** One of the calls rejects with the message, on some tickets. */
  ghost predicate OneRejects(host: Host, calls: seq<ToolCall>, message: string) {
    exists store: Store, call ::
      call in calls && Execute(host, store, call.name, call.arguments).settled == Rejected(message)
  }

  /** The response follows from the last exchange: a reply that ends the turn is
      passed on, a batch with guarded calls waits for them, and otherwise a limit
      was reached. A request throws what the model or a mutating tool threw. */
  ghost predicate Explained(env: Env, f: Frame, xs: seq<Exchange>, e: Ending) {
    if xs != [] && xs[|xs| - 1].outcome.Fails? then
      e.Aborted? && e.error == xs[|xs| - 1].outcome.error
    else if e.Aborted? then
      && xs != [] && !EndsTurn(xs[|xs| - 1].outcome.response)
      && OneRejects(env.host, MutatingCalls(env.host.registry, xs[|xs| - 1].outcome.response.toolCalls), e.error)
    else if xs != [] && EndsTurn(xs[|xs| - 1].outcome.response) then
      var r := xs[|xs| - 1].outcome.response;
      Says(f, e, Said(r.content), r.stopReason, None)
    else if xs != [] && ApprovalCalls(env.host.registry, xs[|xs| - 1].outcome.response.toolCalls) != [] then
      Says(f, e, NeedsYourApproval, ToolUse,
           Some(ApprovalCalls(env.host.registry, xs[|xs| - 1].outcome.response.toolCalls)))
    else
      && Says(f, e, Limit(env, e), MaxIterations, None)
      && (e.response.note.WallClockExceeded? ==>
            env.clock(LastReading(e)) - f.startTime >= env.budget.maxWallClockMs)
  }

  /** Where answering stops, a job's promise rejected with the error. */
  lemma StopRejects(env: Env, mode: Mode, jobs: seq<Job>, s: LoopState)
    requires AnswerJobs(env, mode, jobs, s).error.Some?
    ensures OneRejects(env.host, JobCalls(jobs), AnswerJobs(env, mode, jobs, s).error.value)
  {
    StopsExactly(env, mode, jobs, s);
    var i: nat :| StoppedAt(env, mode, jobs, s, i);
    var earlier := Replay(env.host, s.store, jobs[..i]).store;
    JobCallIn(jobs, i);
    assert Execute(env.host, earlier, jobs[i].call.name, jobs[i].call.arguments).settled.Rejected?;
  }

  lemma {:induction false} JobCallIn(jobs: seq<Job>, i: nat)
    requires i < |jobs|
    ensures jobs[i].call in JobCalls(jobs)
  {
    if i > 0 {
      JobCallIn(jobs[1..], i - 1);
    }
  }

  lemma StopExplained(env: Env, f: Frame, s: LoopState)
    requires s.acc.iterations < env.budget.maxIterations && Iterate(env, f, s).Stop?
    ensures Explained(env, f, if Budget(env, f, s).Some? then [] else [Now(env, f, s)], Iterate(env, f, s).ending)
  {
    if Budget(env, f, s).None? && Now(env, f, s).outcome.Reply? && !EndsTurn(Now(env, f, s).outcome.response) {
      var r := Now(env, f, s).outcome.response;
      var started := AfterReply(AfterAsk(env, f, AfterCheck(env, s)), r);
      assert Iterate(env, f, s) == Batch(env, f, started, r);
      if AnswerSafe(env, started, r).error.Some? {
        BatchRejects(env, started, r);
      }
    }
  }

  lemma BatchRejects(env: Env, s: LoopState, r: LlmResponse)
    requires AnswerSafe(env, s, r).error.Some?
    ensures OneRejects(env.host, MutatingCalls(env.host.registry, r.toolCalls), AnswerSafe(env, s, r).error.value)
  {
    var registry := env.host.registry;
    var mutating := MutatingCalls(registry, r.toolCalls);
    var read := AnswerJobs(env, ReadOnly, RunAll(ReadOnlyCalls(registry, r.toolCalls)), Replied(s, r)).s;
    RunAllCalls(mutating);
    StopRejects(env, Mutating, RunAll(mutating), read);
  }

  lemma ContinueBatch(env: Env, f: Frame, s: LoopState)
    requires Iterate(env, f, s).Continue?
    ensures Budget(env, f, s).None? && Now(env, f, s).outcome.Reply?
    ensures var r := Now(env, f, s).outcome.response;
      !EndsTurn(r) && ApprovalCalls(env.host.registry, r.toolCalls) == []
  {
  }

  lemma {:induction false} LoopExplained(env: Env, f: Frame, s: LoopState)
    ensures Explained(env, f, Exchanges(env, f, s), RunLoop(env, f, s))
    decreases env.budget.maxIterations - s.acc.iterations
  {
    if s.acc.iterations < env.budget.maxIterations {
      IterateAdvances(env, f, s);
      match Iterate(env, f, s)
      case Stop(ending) => StopExplained(env, f, s);
      case Continue(next) =>
        ContinueBatch(env, f, s);
        LoopExplained(env, f, next);
        ExplainedLater(env, f, Now(env, f, s), Exchanges(env, f, next), RunLoop(env, f, next));
    }
  }

  /** A batch without guarded calls decides nothing: what follows it does. */
  lemma ExplainedLater(env: Env, f: Frame, x: Exchange, xs: seq<Exchange>, e: Ending)
    requires x.outcome.Reply? && !EndsTurn(x.outcome.response)
    requires ApprovalCalls(env.host.registry, x.outcome.response.toolCalls) == []
    requires Explained(env, f, xs, e)
    ensures Explained(env, f, [x] + xs, e)
  {
    var all := [x] + xs;
    if xs == [] {
      assert all[|all| - 1] == x;
    } else {
      assert all[|all| - 1] == xs[|xs| - 1];
    }
  }

  // ----------------------------------------------------------------- requests

  /** The part of a trace between agent and model. */
  function Talk(trace: seq<Event>): seq<Event> {
    if trace == [] then []
    else (if trace[0].Asked? || trace[0].Iteration? then [trace[0]] else []) + Talk(trace[1..])
  }

  /** The talk of some exchanges: each request with the system text, the history and
      the tools, then, if it was answered, its iteration and what the reply used. */
  function Told(env: Env, system: string, iteration: int, xs: seq<Exchange>): seq<Event>
    decreases |xs|
  {
    if xs == [] then []
    else
      [Asked(LlmRequest(system, xs[0].messages, env.tools), xs[0].attempts)]
      + (match xs[0].outcome
         case Fails(_) => []
         case Reply(r) => [Iteration(iteration + 1, r.stopReason, |r.toolCalls|, r.usage)])
      + Told(env, system, iteration + 1, xs[1..])
  }

  lemma {:induction false} TalkConcat(a: seq<Event>, b: seq<Event>)
    ensures Talk(a + b) == Talk(a) + Talk(b)
  {
    if a == [] {
      assert a + b == b;
    } else {
      HeadOfSum(a, b);
      TalkConcat(a[1..], b);
      Associative(if a[0].Asked? || a[0].Iteration? then [a[0]] else [], Talk(a[1..]), Talk(b));
    }
  }

  lemma TalkOne(e: Event)
    ensures Talk([e]) == if e.Asked? || e.Iteration? then [e] else []
  {
    assert [e][1..] == [];
  }

  lemma EventsAreSilent(mode: Mode, job: Job, iteration: int)
    ensures Talk(EventsOf(mode, job, iteration)) == []
  {
    var ran := if job.run then [Ran(job.call)] else [];
    var decided :=
      if !mode.Decided? then []
      else if job.run then [ApprovalGranted(job.call, iteration)] else [ApprovalDenied(job.call, iteration)];
    assert EventsOf(mode, job, iteration) == ran + decided;
    TalkConcat(ran, decided);
  }

  lemma {:induction false} AnsweringIsSilent(env: Env, mode: Mode, jobs: seq<Job>, s: LoopState)
    ensures Talk(AnswerJobs(env, mode, jobs, s).s.trace) == Talk(s.trace)
    decreases |jobs|
  {
    if jobs != [] {
      var call := jobs[0].call;
      var events := EventsOf(mode, jobs[0], s.acc.iterations);
      var e := Execute(env.host, s.store, call.name, call.arguments);
      EventsAreSilent(mode, jobs[0], s.acc.iterations);
      TalkConcat(s.trace, events);
      TalkConcat(s.trace, [Ran(call)]);
      TalkOne(Ran(call));
      if !jobs[0].run {
        AnsweringIsSilent(env, mode, jobs[1..], Record(env, s, call, DENIED, s.store, events));
      } else if e.settled.Fulfilled? || mode.ReadOnly? {
        AnsweringIsSilent(env, mode, jobs[1..], Record(env, s, call, SettledResult(e.settled), e.store, events));
      }
    }
  }

  lemma BatchIsSilent(env: Env, f: Frame, s: LoopState, r: LlmResponse)
    ensures Talk(StateOf(Batch(env, f, s, r)).trace) == Talk(s.trace)
  {
    var registry := env.host.registry;
    var readJobs := RunAll(ReadOnlyCalls(registry, r.toolCalls));
    var writeJobs := RunAll(MutatingCalls(registry, r.toolCalls));
    AnsweringIsSilent(env, ReadOnly, readJobs, Replied(s, r));
    AnsweringIsSilent(env, Mutating, writeJobs, AnswerJobs(env, ReadOnly, readJobs, Replied(s, r)).s);
    var done := AnswerSafe(env, s, r).s;
    var pause := AwaitingApproval(ApprovalCalls(registry, r.toolCalls), done.acc.iterations);
    TalkConcat(done.trace, [pause]);
    TalkOne(pause);
  }

  lemma IterateTalks(env: Env, f: Frame, s: LoopState)
    requires Budget(env, f, s).None?
    ensures Talk(StateOf(Iterate(env, f, s)).trace)
         == Talk(s.trace) + Told(env, f.system, s.acc.iterations, [Now(env, f, s)])
  {
    var x := Now(env, f, s);
    var asked := AfterAsk(env, f, AfterCheck(env, s));
    var question := Asked(LlmRequest(f.system, s.messages, env.tools), x.attempts);
    assert [x][1..] == [];
    assert asked.trace == s.trace + [question];
    TalkConcat(s.trace, [question]);
    TalkOne(question);
    if x.outcome.Reply? {
      var r := x.outcome.response;
      var replied := AfterReply(asked, r);
      var reply := Iteration(s.acc.iterations + 1, r.stopReason, |r.toolCalls|, r.usage);
      assert replied.trace == asked.trace + [reply];
      TalkConcat(asked.trace, [reply]);
      TalkOne(reply);
      BatchIsSilent(env, f, replied, r);
      Associative(Talk(s.trace), [question], [reply]);
    }
  }

  lemma ToldConcat(env: Env, system: string, iteration: int, x: Exchange, xs: seq<Exchange>)
    ensures Told(env, system, iteration, [x] + xs)
         == Told(env, system, iteration, [x]) + Told(env, system, iteration + 1, xs)
  {
    assert ([x] + xs)[1..] == xs && [x][1..] == [];
  }

  lemma TalksOn(env: Env, f: Frame, s: LoopState, middle: seq<Event>, end: seq<Event>, xs: seq<Exchange>)
    requires Talk(middle) == Talk(s.trace) + Told(env, f.system, s.acc.iterations, [Now(env, f, s)])
    requires Talk(end) == Talk(middle) + Told(env, f.system, s.acc.iterations + 1, xs)
    ensures Talk(end) == Talk(s.trace) + Told(env, f.system, s.acc.iterations, [Now(env, f, s)] + xs)
  {
    ToldConcat(env, f.system, s.acc.iterations, Now(env, f, s), xs);
    Associative(Talk(s.trace), Told(env, f.system, s.acc.iterations, [Now(env, f, s)]),
                Told(env, f.system, s.acc.iterations + 1, xs));
  }

  /** The loop talks to the model exactly as its exchanges tell: every request
      carries the system text, the tools and the history of its exchange. */
  lemma {:induction false} LoopTalks(env: Env, f: Frame, s: LoopState)
    ensures Talk(RunLoop(env, f, s).s.trace)
         == Talk(s.trace) + Told(env, f.system, s.acc.iterations, Exchanges(env, f, s))
    decreases env.budget.maxIterations - s.acc.iterations
  {
    if s.acc.iterations < env.budget.maxIterations {
      IterateAdvances(env, f, s);
      if Budget(env, f, s).None? {
        IterateTalks(env, f, s);
        if Iterate(env, f, s).Continue? {
          var next := Iterate(env, f, s).s;
          LoopTalks(env, f, next);
          TalksOn(env, f, s, next.trace, RunLoop(env, f, next).s.trace, Exchanges(env, f, next));
        }
      }
    }
  }

  /** The model's reply as it is kept in the history. */
  function Kept(r: LlmResponse): ChatMessage {
    ChatMessage(Assistant, r.content, Some(r.toolCalls), None)
  }

  /** Each exchange shows the model the whole history so far: what it was shown
      before, its own reply to that, and the answers to its calls. */
  ghost predicate Chained(start: seq<ChatMessage>, xs: seq<Exchange>) {
    && (xs != [] ==> xs[0].messages == start)
    && forall i :: 0 <= i < |xs| - 1 ==>
         xs[i].outcome.Reply? && Follows(xs[i].messages, xs[i].outcome.response, xs[i + 1].messages)
  }

  /** `later` is `before`, the reply, and one tool message per safe call. */
  ghost predicate Follows(before: seq<ChatMessage>, r: LlmResponse, later: seq<ChatMessage>) {
    && before + [Kept(r)] <= later
    && forall i :: |before| < i < |later| ==> later[i].role == ToolRole
  }

  lemma {:induction false} AnswersAreTools(host: Host, jobs: seq<Job>, results: seq<ToolResult>)
    requires |jobs| == |results|
    ensures forall m :: m in Answers(host, jobs, results) ==> m.role == ToolRole
    decreases |jobs|
  {
    if jobs != [] {
      AnswersAreTools(host, jobs[1..], results[1..]);
    }
  }

  lemma IterateFollows(env: Env, f: Frame, s: LoopState)
    requires Iterate(env, f, s).Continue?
    ensures Now(env, f, s).outcome.Reply?
    ensures Follows(s.messages, Now(env, f, s).outcome.response, Iterate(env, f, s).s.messages)
  {
    ContinueBatch(env, f, s);
    IterateCases(env, f, s);
    var s1, r := BatchStart(env, f, s), BatchReply(env, f, s);
    BatchShape(env, f, s1, r);
    SafeShape(env, s1, r);
    var answers := Answers(env.host, SafeJobs(env, r), Replay(env.host, s.store, SafeJobs(env, r)).results);
    AnswersAreTools(env.host, SafeJobs(env, r), Replay(env.host, s.store, SafeJobs(env, r)).results);
    var later := Iterate(env, f, s).s.messages;
    assert later == s.messages + ([Kept(r)] + answers) == s.messages + [Kept(r)] + answers;
    forall i | |s.messages| < i < |later| ensures later[i].role == ToolRole {
      assert later[i] == answers[i - |s.messages| - 1];
    }
  }

  lemma {:induction false} LoopChained(env: Env, f: Frame, s: LoopState)
    ensures Chained(s.messages, Exchanges(env, f, s))
    decreases env.budget.maxIterations - s.acc.iterations
  {
    if s.acc.iterations < env.budget.maxIterations && Budget(env, f, s).None? && Iterate(env, f, s).Continue? {
      var next := Iterate(env, f, s).s;
      IterateAdvances(env, f, s);
      IterateFollows(env, f, s);
      LoopChained(env, f, next);
      var x, xs := Now(env, f, s), Exchanges(env, f, next);
      assert forall i :: 0 <= i < |xs| ==> ([x] + xs)[i + 1] == xs[i];
    }
  }

  // --------------------------------------------------------------- one request

  /** The exchanges of a request on a session. */
  function ServeExchanges(env: Env, session: Session, request: AgentLoop.Request): seq<Exchange> {
    match request
    case Chat(text, system) =>
      StartExchanges(env, session.conversationId, system.GetOr(env.defaultSystem), ChatStart(session, text))
    case Approve(decisions) =>
      match CheckApproval(env.host.registry, session.history, decisions)
      case Refusal(_) => []
      case Jobs(jobs) =>
        var done := AnswerJobs(env, Decided, jobs, ApproveStart(session));
        if done.error.Some? then []
        else StartExchanges(env, session.conversationId, env.defaultSystem, done.s)
  }

  function StartFrame(env: Env, conversationId: string, system: string, s: LoopState): Frame {
    Frame(conversationId, system, env.clock(s.meter.readings))
  }

  function Started(s: LoopState): LoopState {
    s.(meter := s.meter.(readings := s.meter.readings + 1))
  }

  function StartExchanges(env: Env, conversationId: string, system: string, s: LoopState): seq<Exchange> {
    Exchanges(env, StartFrame(env, conversationId, system, s), Started(s))
  }

  /** What a loop that starts with unused accumulators makes of its exchanges. */
  ghost predicate Tells(env: Env, f: Frame, s: LoopState, xs: seq<Exchange>, e: Ending) {
    && e.s.acc.usage.inputTokens == SpentIn(xs) && e.s.acc.usage.outputTokens == SpentOut(xs)
    && e.s.acc.iterations == s.acc.iterations + |xs|
    && Explained(env, f, xs, e)
    && Talk(e.s.trace) == Talk(s.trace) + Told(env, f.system, s.acc.iterations, xs)
    && Chained(s.messages, xs)
  }

  lemma StartTells(env: Env, conversationId: string, system: string, s: LoopState)
    requires s.acc.usage.inputTokens == 0 && s.acc.usage.outputTokens == 0
    ensures Tells(env, StartFrame(env, conversationId, system, s), s,
                  StartExchanges(env, conversationId, system, s), StartLoop(env, conversationId, system, s))
  {
    hide RunLoop, Exchanges;
    var f := StartFrame(env, conversationId, system, s);
    LoopSpends(env, f, Started(s));
    LoopExplained(env, f, Started(s));
    LoopTalks(env, f, Started(s));
    LoopChained(env, f, Started(s));
  }

  /** A new chat message, as the history gets it. */
  function Spoken(text: string): ChatMessage {
    ChatMessage(User, text, None, None)
  }

  /** A chat, whether it returns or throws: its tokens are exactly those of the
      model's replies, its response follows from the last of them, and the first
      thing the model is shown is the stored history and the user's text, with the
      system text of the request or else the default one. */
  lemma ChatTells(env: Env, session: Session, text: string, system: Option<string>)
    ensures var xs := ServeExchanges(env, session, Chat(text, system));
      var e := ChatEnding(env, session, text, system);
      && Tells(env, Frame(session.conversationId, if system.Some? then system.value else env.defaultSystem,
                          env.clock(session.meter.readings)), ChatStart(session, text), xs, e)
      && (xs != [] ==> xs[0].messages == session.history + [Spoken(text)])
      && e.s.acc.iterations == |xs|
      && Talk(session.trace) == Talk(ChatStart(session, text).trace)
  {
    hide RunLoop, Exchanges;
    StartTells(env, session.conversationId, system.GetOr(env.defaultSystem), ChatStart(session, text));
  }

  /** An accepted approval whose calls are all answered: the same of its loop, which
      starts with one iteration used, after the stored history and those answers. */
  lemma ApproveTells(env: Env, session: Session, jobs: seq<Job>)
    requires AnswerJobs(env, Decided, jobs, ApproveStart(session)).error.None?
    ensures var done := AnswerJobs(env, Decided, jobs, ApproveStart(session)).s;
      var xs := StartExchanges(env, session.conversationId, env.defaultSystem, done);
      var e := ApproveEnding(env, session, jobs);
      && Tells(env, Frame(session.conversationId, env.defaultSystem, env.clock(session.meter.readings)), done, xs, e)
      && e.s.acc.iterations == 1 + |xs|
      && Talk(done.trace) == Talk(session.trace)
      && (xs != [] ==>
            && session.history <= xs[0].messages && |xs[0].messages| == |session.history| + |jobs|
            && forall i :: |session.history| <= i < |xs[0].messages| ==> xs[0].messages[i].role == ToolRole)
  {
    hide RunLoop, Exchanges;
    var s := ApproveStart(session);
    var done := AnswerJobs(env, Decided, jobs, s).s;
    AnswerJobsKeeps(env, Decided, jobs, s);
    AnswerJobsIsReplay(env, Decided, jobs, s);
    AnsweringIsSilent(env, Decided, jobs, s);
    var results := Replay(env.host, s.store, jobs).results;
    AnswersAreTools(env.host, jobs, results);
    AnswersFacts(env.host, jobs, results);
    StartTells(env, session.conversationId, env.defaultSystem, done);
  }

  /** The counts of a response are real: its tokens are, componentwise, the sum over
      the model's replies in the request, and its iterations the times it was asked,
      plus the paused turn's for an approval. */
  lemma ResponseCountsReplies(env: Env, session: Session, request: AgentLoop.Request)
    requires Serve(env, session, request).1.Responded?
    ensures var r := Serve(env, session, request).1.response;
      var xs := ServeExchanges(env, session, request);
      && r.usage.inputTokens == SpentIn(xs) && r.usage.outputTokens == SpentOut(xs)
      && r.iterations == |xs| + (if request.Chat? then 0 else 1)
      && r.conversationId == session.conversationId
  {
    hide RunLoop, Exchanges;
    match request
    case Chat(text, system) => ChatTells(env, session, text, system);
    case Approve(decisions) =>
      ApproveTells(env, session, CheckApproval(env.host.registry, session.history, decisions).jobs);
  }

  /** The last thing that came back from the model, if anything did. */
  function Last(xs: seq<Exchange>): Option<LlmOutcome> {
    if xs == [] then None else Some(xs[|xs| - 1].outcome)
  }

  /** What a response says after `last`, when its tokens are `used`. */
  ghost predicate SaysAfter(env: Env, last: Option<LlmOutcome>, used: nat, r: ChatResponse) {
    if last.Some? && last.value.Fails? then false
    else if last.Some? && EndsTurn(last.value.response) then
      && r.note == Said(last.value.response.content) && r.stopReason == last.value.response.stopReason
      && r.awaitingApproval.None?
    else if last.Some? && ApprovalCalls(env.host.registry, last.value.response.toolCalls) != [] then
      && r.note == NeedsYourApproval && r.stopReason == ToolUse
      && r.awaitingApproval == Some(ApprovalCalls(env.host.registry, last.value.response.toolCalls))
    else
      && r.stopReason == MaxIterations && r.awaitingApproval.None?
      && (r.iterations >= env.budget.maxIterations ==> r.note == IterationsReached)
      && (r.iterations < env.budget.maxIterations && used >= env.budget.maxTotalTokens ==>
            r.note == TokensExceeded(used))
      && (r.iterations < env.budget.maxIterations && used < env.budget.maxTotalTokens ==> r.note == WallClockExceeded)
  }

  lemma ExplainedSays(env: Env, f: Frame, s: LoopState, xs: seq<Exchange>, e: Ending)
    requires Tells(env, f, s, xs, e) && e.Ended?
    ensures SaysAfter(env, Last(xs), SpentIn(xs) + SpentOut(xs), e.response)
  {
  }

  /** The content of a response is real: what the last reply says when it ends the
      turn, the calls it awaits when it needs approval, else the limit reached, with
      the tokens really used. */
  lemma ResponseIsExplained(env: Env, session: Session, request: AgentLoop.Request)
    requires Serve(env, session, request).1.Responded?
    ensures var xs := ServeExchanges(env, session, request);
      SaysAfter(env, Last(xs), SpentIn(xs) + SpentOut(xs), Serve(env, session, request).1.response)
  {
    hide StartLoop, StartExchanges, Tells, SaysAfter;
    match request
    case Chat(text, system) =>
      ChatTells(env, session, text, system);
      ExplainedSays(env, Frame(session.conversationId, system.GetOr(env.defaultSystem),
                               env.clock(session.meter.readings)),
                    ChatStart(session, text), ServeExchanges(env, session, request),
                        ChatEnding(env, session, text, system));
    case Approve(decisions) =>
      var jobs := CheckApproval(env.host.registry, session.history, decisions).jobs;
      ApproveTells(env, session, jobs);
      ExplainedSays(env, Frame(session.conversationId, env.defaultSystem, env.clock(session.meter.readings)),
                    AnswerJobs(env, Decided, jobs, ApproveStart(session)).s,
                    ServeExchanges(env, session, request), ApproveEnding(env, session, jobs));
  }

  /** A request that throws keeps its conversation, and throws what the last attempt of
      the model failed with, or else what a mutating call of the last reply, or a
      decided call of an approval, rejected with. */
  lemma CrashIsExplained(env: Env, session: Session, request: AgentLoop.Request)
    requires Serve(env, session, request).1.Crashed?
    ensures var (next, served) := Serve(env, session, request);
      var last := Last(ServeExchanges(env, session, request));
      && next.history == session.history && next.status == session.status
      && match last
         case None => request.Approve? && OneRejects(env.host, Pending(session.history), served.error)
         case Some(Fails(error)) => served.error == error
         case Some(Reply(r)) => OneRejects(env.host, MutatingCalls(env.host.registry, r.toolCalls), served.error)
  {
    hide StartLoop, StartExchanges, OneRejects;
    match request
    case Chat(text, system) =>
      ChatTells(env, session, text, system);
    case Approve(decisions) =>
      var jobs := CheckApproval(env.host.registry, session.history, decisions).jobs;
      if AnswerJobs(env, Decided, jobs, ApproveStart(session)).error.None? {
        ApproveTells(env, session, jobs);
      } else {
        StopRejects(env, Decided, jobs, ApproveStart(session));
        Approvals.AcceptedExactly(env.host.registry, session.history, decisions);
      }
  }

  /** The tokens the model really used in a request, returned or not, stay below the
      budget plus one reply. */
  lemma SpentWithinBudget(env: Env, session: Session, request: AgentLoop.Request, most: nat)
    requires TokensAtMost(env, most)
    ensures var xs := ServeExchanges(env, session, request);
      SpentIn(xs) + SpentOut(xs) == 0 || SpentIn(xs) + SpentOut(xs) <= env.budget.maxTotalTokens - 1 + most
  {
    hide Exchanges, TokensAtMost;
    match request
    case Chat(text, system) =>
      StartSpent(env, session.conversationId, system.GetOr(env.defaultSystem), ChatStart(session, text), most);
    case Approve(decisions) =>
      var checked := CheckApproval(env.host.registry, session.history, decisions);
      if checked.Jobs? && AnswerJobs(env, Decided, checked.jobs, ApproveStart(session)).error.None? {
        var done := AnswerJobs(env, Decided, checked.jobs, ApproveStart(session)).s;
        AnswerJobsKeeps(env, Decided, checked.jobs, ApproveStart(session));
        StartSpent(env, session.conversationId, env.defaultSystem, done, most);
      }
  }

  lemma StartSpent(env: Env, conversationId: string, system: string, s: LoopState, most: nat)
    requires TokensAtMost(env, most) && s.acc.usage.inputTokens == 0 && s.acc.usage.outputTokens == 0
    ensures var xs := StartExchanges(env, conversationId, system, s);
      SpentIn(xs) + SpentOut(xs) == 0 || SpentIn(xs) + SpentOut(xs) <= env.budget.maxTotalTokens - 1 + most
  {
    hide RunLoop, Exchanges, TokensAtMost;
    LoopSpent(env, StartFrame(env, conversationId, system, s), Started(s), most);
  }

  lemma LoopSpent(env: Env, f: Frame, s: LoopState, most: nat)
    requires TokensAtMost(env, most) && s.acc.usage.inputTokens == 0 && s.acc.usage.outputTokens == 0
    ensures var xs := Exchanges(env, f, s);
      SpentIn(xs) + SpentOut(xs) == 0 || SpentIn(xs) + SpentOut(xs) <= env.budget.maxTotalTokens - 1 + most
  {
    hide RunLoop, Exchanges, TokensAtMost;
    var xs, u := Exchanges(env, f, s), RunLoop(env, f, s).s.acc.usage;
    assert u.Total() == SpentIn(xs) + SpentOut(xs) by {
      LoopSpends(env, f, s);
    }
    assert u.Total() == 0 || u.Total() <= env.budget.maxTotalTokens - 1 + most by {
      LoopUsage(env, f, s, most);
    }
  }

  /** What a request asks of the model is what its exchanges tell, for either kind of request. */
  lemma ServeTalks(env: Env, session: Session, request: AgentLoop.Request)
    ensures var next := Serve(env, session, request).0;
      var system := if request.Chat? && request.system.Some? then request.system.value else env.defaultSystem;
      Talk(next.trace) == Talk(session.trace)
        + Told(env, system, if request.Chat? then 0 else 1, ServeExchanges(env, session, request))
  {
    hide RunLoop, Exchanges;
    match request
    case Chat(text, system) => ChatTells(env, session, text, system);
    case Approve(decisions) =>
      var checked := CheckApproval(env.host.registry, session.history, decisions);
      if checked.Jobs? {
        AnsweringIsSilent(env, Decided, checked.jobs, ApproveStart(session));
        AnswerJobsKeeps(env, Decided, checked.jobs, ApproveStart(session));
        if AnswerJobs(env, Decided, checked.jobs, ApproveStart(session)).error.None? {
          ApproveTells(env, session, checked.jobs);
        }
      }
  }
}
