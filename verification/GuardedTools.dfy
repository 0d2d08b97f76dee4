/**
 Guarded tools over whole runs: they run only in an approval that approves the
 pending call, and each call id runs at most once, plus once for every approval
 that ran it and then threw before its answer was persisted.
 */
module GuardedTools {
  import opened Prelude
  import opened LlmTypes
  import opened Tools
  import opened AgentLoop
  import opened AgentShape
  import opened PendingCalls
  import opened Approvals
  import opened Budgets

  /** `after` continues `before`, and every new event satisfies `p`. */
  ghost predicate Adds(before: seq<Event>, after: seq<Event>, p: Event -> bool) {
    && before <= after
    && forall i :: |before| <= i < |after| ==> p(after[i])
  }

  lemma AddsTransitive(a: seq<Event>, b: seq<Event>, c: seq<Event>, p: Event -> bool)
    requires Adds(a, b, p) && Adds(b, c, p)
    ensures Adds(a, c, p)
  {
    forall i | |a| <= i < |c| ensures p(c[i]) {
      if i < |b| {
        assert c[i] == b[i];
      }
    }
  }

  lemma AddsMore(a: seq<Event>, more: seq<Event>, p: Event -> bool)
    requires forall e :: e in more ==> p(e)
    ensures Adds(a, a + more, p)
  {
    forall i | |a| <= i < |a + more| ensures p((a + more)[i]) {
      assert (a + more)[i] == more[i - |a|];
    }
  }

  /** The event announces a human's decision. */
  predicate Announces(e: Event) {
    e.ApprovalGranted? || e.ApprovalDenied?
  }

  /** An event of answering jobs: never a model request, a tool runs only for a job
      that says so, and decisions are announced only where there are any. */
  predicate FromJobs(mode: Mode, jobs: seq<Job>, e: Event) {
    !e.Asked? && (e.Ran? ==> Job(e.call, true) in jobs) && (Announces(e) ==> mode.Decided?)
  }

  lemma {:induction false} AnswerJobsAdds(env: Env, mode: Mode, jobs: seq<Job>, all: seq<Job>, s: LoopState)
    requires forall j :: j in jobs ==> j in all
    ensures Adds(s.trace, AnswerJobs(env, mode, jobs, s).s.trace, e => FromJobs(mode, all, e))
    decreases |jobs|
  {
    var p := (e: Event) => FromJobs(mode, all, e);
    if jobs != [] {
      var call := jobs[0].call;
      assert jobs[0] in all;
      var events := EventsOf(mode, jobs[0], s.acc.iterations);
      var e := Execute(env.host, s.store, call.name, call.arguments);
      assert jobs[0].run ==> jobs[0] == Job(call, true);
      AddsMore(s.trace, events, p);
      if !jobs[0].run {
        var one := Record(env, s, call, DENIED, s.store, events);
        AnswerJobsAdds(env, mode, jobs[1..], all, one);
        AddsTransitive(s.trace, one.trace, AnswerJobs(env, mode, jobs[1..], one).s.trace, p);
      } else if e.settled.Rejected? && !mode.ReadOnly? {
        AddsMore(s.trace, [Ran(call)], p);
      } else {
        var one := Record(env, s, call, SettledResult(e.settled), e.store, events);
        AnswerJobsAdds(env, mode, jobs[1..], all, one);
        AddsTransitive(s.trace, one.trace, AnswerJobs(env, mode, jobs[1..], one).s.trace, p);
      }
    }
  }

  /** An event of the loop: no guarded tool runs, and while nothing was pending
      (`clear`), no request shows the model an unanswered call. */
  predicate FromLoop(registry: Registry, clear: bool, e: Event) {
    && (e.Ran? ==> !NeedsApproval(registry, e.call.name)) && !Announces(e)
    && (e.Asked? && clear ==> Pending(e.request.messages) == [])
  }

  lemma AddsWeaker(a: seq<Event>, b: seq<Event>, p: Event -> bool, q: Event -> bool)
    requires Adds(a, b, p) && forall e :: p(e) ==> q(e)
    ensures Adds(a, b, q)
  {
  }

  lemma BatchAdds(env: Env, f: Frame, s: LoopState, r: LlmResponse, clear: bool)
    ensures Adds(s.trace, StateOf(Batch(env, f, s, r)).trace, e => FromLoop(env.host.registry, clear, e))
  {
    var registry := env.host.registry;
    var p := (e: Event) => FromLoop(registry, clear, e);
    var readJobs := RunAll(ReadOnlyCalls(registry, r.toolCalls));
    var writeJobs := RunAll(MutatingCalls(registry, r.toolCalls));
    var read := AnswerJobs(env, ReadOnly, readJobs, Replied(s, r)).s;
    var done := AnswerSafe(env, s, r).s;
    PartitionMembers(registry, r.toolCalls);
    RunAllMembers(ReadOnlyCalls(registry, r.toolCalls));
    RunAllMembers(MutatingCalls(registry, r.toolCalls));
    AnswerJobsAdds(env, ReadOnly, readJobs, readJobs, Replied(s, r));
    AnswerJobsAdds(env, Mutating, writeJobs, writeJobs, read);
    AddsWeaker(s.trace, read.trace, e => FromJobs(ReadOnly, readJobs, e), p);
    AddsWeaker(read.trace, done.trace, e => FromJobs(Mutating, writeJobs, e), p);
    AddsTransitive(s.trace, read.trace, done.trace, p);
    var last := [AwaitingApproval(ApprovalCalls(registry, r.toolCalls), done.acc.iterations)];
    AddsMore(done.trace, last, p);
    AddsTransitive(s.trace, done.trace, done.trace + last, p);
  }

  lemma {:induction false} RunAllMembers(calls: seq<ToolCall>)
    ensures forall j :: j in RunAll(calls) ==> j.call in calls
  {
    if calls != [] {
      RunAllMembers(calls[1..]);
    }
  }

  /** What an iteration adds before its batch: its request, then its reply. */
  lemma AskAdds(env: Env, f: Frame, s: LoopState, clear: bool)
    requires clear ==> Pending(s.messages) == []
    ensures var p := e => FromLoop(env.host.registry, clear, e);
      && Adds(s.trace, AfterAsk(env, f, AfterCheck(env, s)).trace, p)
      && (Asking(env, f, s).outcome.Reply? ==>
            Adds(s.trace, AfterReply(AfterAsk(env, f, AfterCheck(env, s)), Asking(env, f, s).outcome.response).trace,
                 p))
  {
    var p := (e: Event) => FromLoop(env.host.registry, clear, e);
    var asked := AfterAsk(env, f, AfterCheck(env, s));
    AddsMore(s.trace, [Asked(RequestOf(env, f, s.messages), Asking(env, f, s).attempts)], p);
    if Asking(env, f, s).outcome.Reply? {
      var r := Asking(env, f, s).outcome.response;
      AddsMore(asked.trace, [Iteration(asked.acc.iterations, r.stopReason, |r.toolCalls|, r.usage)], p);
      AddsTransitive(s.trace, asked.trace, AfterReply(asked, r).trace, p);
    }
  }

  lemma IterateAdds(env: Env, f: Frame, s: LoopState, clear: bool)
    requires clear ==> Pending(s.messages) == []
    ensures Adds(s.trace, StateOf(Iterate(env, f, s)).trace, e => FromLoop(env.host.registry, clear, e))
    ensures clear && Iterate(env, f, s).Continue? ==> Pending(Iterate(env, f, s).s.messages) == []
  {
    AskAdds(env, f, s, clear);
    IterateCases(env, f, s);
    if HasBatch(env, f, s) {
      var s1, r := BatchStart(env, f, s), BatchReply(env, f, s);
      BatchAdds(env, f, s1, r, clear);
      AddsTransitive(s.trace, s1.trace, StateOf(Batch(env, f, s1, r)).trace,
                     e => FromLoop(env.host.registry, clear, e));
      if Iterate(env, f, s).Continue? {
        BatchShape(env, f, s1, r);
        SafeShape(env, s1, r);
        PendingAfterBlock(env, s.store, s.messages, r);
        var pending := Pending(s.messages + Block(env, s.store, r));
        assert pending != [] ==> pending[0] in pending;
      }
    }
  }

  lemma {:induction false} LoopAdds(env: Env, f: Frame, s: LoopState, clear: bool)
    requires clear ==> Pending(s.messages) == []
    ensures Adds(s.trace, RunLoop(env, f, s).s.trace, e => FromLoop(env.host.registry, clear, e))
    decreases env.budget.maxIterations - s.acc.iterations
  {
    if s.acc.iterations < env.budget.maxIterations {
      IterateAdvances(env, f, s);
      IterateAdds(env, f, s, clear);
      var step := Iterate(env, f, s);
      if step.Continue? {
        LoopAdds(env, f, step.s, clear);
        AddsTransitive(s.trace, step.s.trace, RunLoop(env, f, step.s).s.trace,
                       e => FromLoop(env.host.registry, clear, e));
      }
    }
  }

  lemma StartAdds(env: Env, conversationId: string, system: string, s: LoopState, clear: bool)
    requires clear ==> Pending(s.messages) == []
    ensures Adds(s.trace, StartLoop(env, conversationId, system, s).s.trace, e => FromLoop(env.host.registry, clear, e))
  {
    hide RunLoop;
    var f := Frame(conversationId, system, env.clock(s.meter.readings));
    LoopAdds(env, f, s.(meter := s.meter.(readings := s.meter.readings + 1)), clear);
  }

  // ---------------------------------------------------------- one request

  /** What a request on `session` may do: run a guarded tool only in an approval,
      for a call pending in the stored history and approved in that very request;
      and, in an approval or with nothing pending, ask the model only with every call answered. */
  predicate Permitted(registry: Registry, session: Session, request: AgentLoop.Request, e: Event) {
    && (e.Ran? && NeedsApproval(registry, e.call.name) ==>
          && request.Approve?
          && e.call in Pending(session.history)
          && Decision(e.call.id, true) in request.decisions)
    && (e.Asked? && (request.Approve? || Pending(session.history) == []) ==> Pending(e.request.messages) == [])
  }

  lemma ApproveAdds(env: Env, session: Session, decisions: seq<Decision>)
    ensures Adds(session.trace, Serve(env, session, Approve(decisions)).0.trace,
                 e => Permitted(env.host.registry, session, Approve(decisions), e))
  {
    var registry := env.host.registry;
    var p := (e: Event) => Permitted(registry, session, Approve(decisions), e);
    var checked := CheckApproval(registry, session.history, decisions);
    if checked.Jobs? {
      var jobs := checked.jobs;
      AcceptedExactly(registry, session.history, decisions);
      var done := AnswerJobs(env, Decided, jobs, ApproveStart(session));
      AnswerJobsAdds(env, Decided, jobs, jobs, ApproveStart(session));
      AddsWeaker(session.trace, done.s.trace, e => FromJobs(Decided, jobs, e), p);
      if done.error.None? {
        ApprovalClears(env, session, jobs);
        StartAdds(env, session.conversationId, env.defaultSystem, done.s, true);
        var ending := StartLoop(env, session.conversationId, env.defaultSystem, done.s);
        AddsWeaker(done.s.trace, ending.s.trace, e => FromLoop(registry, true, e), p);
        AddsTransitive(session.trace, done.s.trace, ending.s.trace, p);
      }
    }
  }

  /** Every request, whatever the model does, adds only permitted events. */
  lemma ServeIsPermitted(env: Env, session: Session, request: AgentLoop.Request)
    ensures Adds(session.trace, Serve(env, session, request).0.trace,
                 e => Permitted(env.host.registry, session, request, e))
  {
    match request
    case Chat(text, system) =>
      var clear := Pending(session.history) == [];
      UserMessagePending(session.history, text);
      StartAdds(env, session.conversationId, system.GetOr(env.defaultSystem), ChatStart(session, text), clear);
      AddsWeaker(session.trace, Serve(env, session, request).0.trace,
        e => FromLoop(env.host.registry, clear, e), e => Permitted(env.host.registry, session, request, e));
    case Approve(decisions) => ApproveAdds(env, session, decisions);
  }

  // -------------------------------------------------------- at most once

  /** How often a guarded tool was dispatched for call id `id`. A dispatch runs the
      tool unless its arguments do not validate. */
  function Runs(registry: Registry, trace: seq<Event>, id: string): nat {
    if trace == [] then 0
    else
      var e := trace[|trace| - 1];
      (if e.Ran? && NeedsApproval(registry, e.call.name) && e.call.id == id then 1 else 0)
      + Runs(registry, trace[..|trace| - 1], id)
  }

  predicate RunsNothing(registry: Registry, id: string, e: Event) {
    e.Ran? && NeedsApproval(registry, e.call.name) ==> e.call.id != id
  }

  lemma {:induction false} RunsUnchanged(registry: Registry, before: seq<Event>, after: seq<Event>, id: string)
    requires Adds(before, after, e => RunsNothing(registry, id, e))
    ensures Runs(registry, after, id) == Runs(registry, before, id)
    decreases |after|
  {
    if |after| == |before| {
      assert after == before;
    } else {
      var shorter := after[..|after| - 1];
      assert RunsNothing(registry, id, after[|after| - 1]);
      RunsUnchanged(registry, before, shorter, id);
    }
  }

  /** The validator of the call's tool throws, which stops an approval. */
  predicate ValidatorThrows(registry: Registry, call: ToolCall) {
    call.name in registry && registry[call.name].parse(call.arguments).Throwing?
  }

  /** How often deciding `jobs` dispatches a guarded tool for `id`: until a
      validator throws. Neither the tickets nor the model play a part. */
  function DecidedCount(registry: Registry, jobs: seq<Job>, id: string): nat {
    if jobs == [] then 0
    else if !jobs[0].run then DecidedCount(registry, jobs[1..], id)
    else
      (if NeedsApproval(registry, jobs[0].call.name) && jobs[0].call.id == id then 1 else 0)
      + if ValidatorThrows(registry, jobs[0].call) then 0 else DecidedCount(registry, jobs[1..], id)
  }

  lemma RunsOne(registry: Registry, trace: seq<Event>, e: Event, id: string)
    ensures Runs(registry, trace + [e], id)
         == Runs(registry, trace, id)
            + if e.Ran? && NeedsApproval(registry, e.call.name) && e.call.id == id then 1 else 0
  {
    assert (trace + [e])[..|trace|] == trace;
  }

  lemma {:induction false} DecidedRuns(env: Env, jobs: seq<Job>, s: LoopState, id: string)
    ensures Runs(env.host.registry, AnswerJobs(env, Decided, jobs, s).s.trace, id)
         == Runs(env.host.registry, s.trace, id) + DecidedCount(env.host.registry, jobs, id)
    decreases |jobs|
  {
    if jobs != [] {
      var registry := env.host.registry;
      var call := jobs[0].call;
      var events := EventsOf(Decided, jobs[0], s.acc.iterations);
      var e := Execute(env.host, s.store, call.name, call.arguments);
      if !jobs[0].run {
        RunsOne(registry, s.trace, events[0], id);
        assert events == [events[0]];
        DecidedRuns(env, jobs[1..], Record(env, s, call, DENIED, s.store, events), id);
      } else {
        assert events == [Ran(call)] + [events[1]];
        RunsOne(registry, s.trace, Ran(call), id);
        RunsOne(registry, s.trace + [Ran(call)], events[1], id);
        assert s.trace + events == s.trace + [Ran(call)] + [events[1]];
        assert e.settled.Rejected? <==> ValidatorThrows(registry, call);
        if e.settled.Fulfilled? {
          DecidedRuns(env, jobs[1..], Record(env, s, call, e.settled.result, e.store, events), id);
        }
      }
    }
  }

  lemma {:induction false} CountedIsApproved(registry: Registry, jobs: seq<Job>, id: string)
    requires DecidedCount(registry, jobs, id) > 0
    ensures exists j :: j in jobs && j.run && j.call.id == id
  {
    if !(jobs[0].run && jobs[0].call.id == id) {
      CountedIsApproved(registry, jobs[1..], id);
      var j :| j in jobs[1..] && j.run && j.call.id == id;
      assert j in jobs;
    } else {
      assert jobs[0] in jobs;
    }
  }

  lemma {:induction false} DistinctJobRuns(registry: Registry, jobs: seq<Job>, id: string)
    requires DistinctIds(JobCalls(jobs))
    ensures DecidedCount(registry, jobs, id) <= 1
    ensures id !in Ids(JobCalls(jobs)) ==> DecidedCount(registry, jobs, id) == 0
  {
    if jobs != [] {
      var calls, rest := JobCalls(jobs), JobCalls(jobs[1..]);
      assert calls == [jobs[0].call] + rest;
      forall i, j | 0 <= i < j < |rest| ensures rest[i].id != rest[j].id {
        assert calls[i + 1] == rest[i] && calls[j + 1] == rest[j];
      }
      DistinctJobRuns(registry, jobs[1..], id);
      assert calls[0] in calls;
      forall c | c in rest ensures c in calls && c.id != calls[0].id {
        var j :| 0 <= j < |rest| && rest[j] == c;
        assert calls[j + 1] == c;
      }
    }
  }

  /** One request runs a guarded tool at most once per call id, none for an id
      already answered, and none at all in a chat. */
  lemma ServeRuns(env: Env, session: Session, request: AgentLoop.Request, id: string)
    requires DistinctIds(Pending(session.history))
    ensures var registry := env.host.registry;
      var next := Serve(env, session, request).0;
      var ran := Runs(registry, next.trace, id) - Runs(registry, session.trace, id);
      && 0 <= ran <= 1
      && (id in Answered(session.history) ==> ran == 0)
      && (ran == 1 ==> request.Approve? && id in Ids(Pending(session.history)))
  {
    var registry := env.host.registry;
    var next := Serve(env, session, request).0;
    ServeIsPermitted(env, session, request);
    if request.Chat? || id !in Ids(Pending(session.history)) {
      AddsWeaker(session.trace, next.trace, e => Permitted(registry, session, request, e),
                 e => RunsNothing(registry, id, e));
      RunsUnchanged(registry, session.trace, next.trace, id);
    } else {
      AtLeastAsMany(registry, session.trace, next.trace, id);
      PendingKnown(session.history);
      ApproveRuns(env, session, request.decisions, id);
    }
  }

  lemma {:induction false} AtLeastAsMany(registry: Registry, before: seq<Event>, after: seq<Event>, id: string)
    requires before <= after
    ensures Runs(registry, before, id) <= Runs(registry, after, id)
    decreases |after|
  {
    if |after| == |before| {
      assert after == before;
    } else {
      AtLeastAsMany(registry, before, after[..|after| - 1], id);
    }
  }

  /** What an approval dispatches is fixed by the stored history and the decisions:
      the tickets, the clock and the model have no say. */
  lemma ApproveRunsExactly(env: Env, session: Session, decisions: seq<Decision>, id: string)
    ensures var registry := env.host.registry;
      var checked := CheckApproval(registry, session.history, decisions);
      Runs(registry, Serve(env, session, Approve(decisions)).0.trace, id)
        == Runs(registry, session.trace, id) + if checked.Jobs? then DecidedCount(registry, checked.jobs, id) else 0
  {
    var checked := CheckApproval(env.host.registry, session.history, decisions);
    if checked.Jobs? {
      ApproveEndingRuns(env, session, checked.jobs, id);
    }
  }

  lemma ApproveEndingRuns(env: Env, session: Session, jobs: seq<Job>, id: string)
    ensures Runs(env.host.registry, ApproveEnding(env, session, jobs).s.trace, id)
         == Runs(env.host.registry, session.trace, id) + DecidedCount(env.host.registry, jobs, id)
  {
    var registry := env.host.registry;
    var done := AnswerJobs(env, Decided, jobs, ApproveStart(session));
    DecidedRuns(env, jobs, ApproveStart(session), id);
    if done.error.None? {
      var ending := StartLoop(env, session.conversationId, env.defaultSystem, done.s);
      StartAdds(env, session.conversationId, env.defaultSystem, done.s, false);
      AddsWeaker(done.s.trace, ending.s.trace, e => FromLoop(registry, false, e), e => RunsNothing(registry, id, e));
      RunsUnchanged(registry, done.s.trace, ending.s.trace, id);
    }
  }

  lemma ApproveRuns(env: Env, session: Session, decisions: seq<Decision>, id: string)
    requires DistinctIds(Pending(session.history))
    ensures Runs(env.host.registry, Serve(env, session, Approve(decisions)).0.trace, id)
         <= Runs(env.host.registry, session.trace, id) + 1
  {
    var checked := CheckApproval(env.host.registry, session.history, decisions);
    ApproveRunsExactly(env, session, decisions, id);
    if checked.Jobs? {
      AcceptedJobs(env.host.registry, session.history, decisions);
      DistinctJobRuns(env.host.registry, checked.jobs, id);
    }
  }

  /** Repeating an approval that ran a guarded tool runs it again if and only if the
      first one threw, and then exactly as often; one that returned never does. For
      any ids, whatever the model did in between. */
  lemma RunsAgainExactly(env: Env, session: Session, decisions: seq<Decision>, id: string)
    requires Runs(env.host.registry, Serve(env, session, Approve(decisions)).0.trace, id)
           > Runs(env.host.registry, session.trace, id)
    ensures var registry := env.host.registry;
      var (next, served) := Serve(env, session, Approve(decisions));
      var again := Serve(env, next, Approve(decisions)).0;
      var ran := Runs(registry, next.trace, id) - Runs(registry, session.trace, id);
      && (Runs(registry, again.trace, id) > Runs(registry, next.trace, id) <==> served.Crashed?)
      && Runs(registry, again.trace, id) == Runs(registry, next.trace, id) + if served.Crashed? then ran else 0
  {
    var registry := env.host.registry;
    var (next, served) := Serve(env, session, Approve(decisions));
    var checked := CheckApproval(registry, session.history, decisions);
    ApproveRunsExactly(env, session, decisions, id);
    ApproveRunsExactly(env, next, decisions, id);
    ServeAppends(env, session, Approve(decisions));
    if served.Responded? {
      CountedIsApproved(registry, checked.jobs, id);
      AcceptedExactly(registry, session.history, decisions);
      ReplayIsRefused(env, session, decisions, []);
    }
  }

  // ------------------------------------------------------- distinct histories

  lemma {:induction false} UnansweredDistinct(calls: seq<ToolCall>, answered: set<string>)
    requires DistinctIds(calls)
    ensures DistinctIds(Unanswered(calls, answered))
  {
    if calls != [] {
      var rest := calls[1..];
      UnansweredDistinct(rest, answered);
      UnansweredMembers(rest, answered);
      var tail := Unanswered(rest, answered);
      forall c | c in tail ensures c.id != calls[0].id {
        var j :| 0 <= j < |rest| && rest[j] == c;
        assert calls[j + 1] == c;
      }
    }
  }

  lemma DistinctConcat(a: seq<ToolCall>, b: seq<ToolCall>)
    requires DistinctIds(a) && DistinctIds(b) && Ids(a) !! Ids(b)
    ensures DistinctIds(a + b)
  {
    forall i, j | 0 <= i < j < |a + b| ensures (a + b)[i].id != (a + b)[j].id {
      if i < |a| <= j {
        assert a[i] in a && b[j - |a|] in b;
        assert a[i].id in Ids(a) && b[j - |a|].id in Ids(b);
      }
    }
  }

  lemma {:induction false} LoopDistinct(env: Env, f: Frame, s: LoopState)
    requires FreshModel(env) && DistinctIds(Calls(s.messages))
    ensures var e := RunLoop(env, f, s);
      e.Ended? ==> DistinctIds(Calls(e.s.messages))
    decreases env.budget.maxIterations - s.acc.iterations
  {
    if s.acc.iterations < env.budget.maxIterations {
      IterateAdvances(env, f, s);
      IterateCases(env, f, s);
      var step := Iterate(env, f, s);
      if HasBatch(env, f, s) && Survives(step) {
        var r := BatchReply(env, f, s);
        BatchShape(env, f, BatchStart(env, f, s), r);
        SafeShape(env, BatchStart(env, f, s), r);
        BatchReplyFresh(env, f, s);
        BlockFacts(env, s.store, r);
        CallsConcat(s.messages, Block(env, s.store, r));
        DistinctConcat(Calls(s.messages), r.toolCalls);
      }
      if step.Continue? {
        LoopDistinct(env, f, step.s);
      }
    }
  }

  lemma StartDistinct(env: Env, conversationId: string, system: string, s: LoopState)
    requires FreshModel(env) && DistinctIds(Calls(s.messages))
    ensures var e := StartLoop(env, conversationId, system, s);
      e.Ended? ==> DistinctIds(Calls(e.s.messages))
  {
    hide RunLoop;
    var f := Frame(conversationId, system, env.clock(s.meter.readings));
    LoopDistinct(env, f, s.(meter := s.meter.(readings := s.meter.readings + 1)));
  }

  lemma ApproveDistinct(env: Env, session: Session, jobs: seq<Job>)
    requires FreshModel(env) && DistinctIds(Calls(session.history))
    ensures var e := ApproveEnding(env, session, jobs);
      e.Ended? ==> DistinctIds(Calls(e.s.messages))
  {
    var done := AnswerJobs(env, Decided, jobs, ApproveStart(session));
    if done.error.None? {
      AnswerJobsIsReplay(env, Decided, jobs, ApproveStart(session));
      var results := Replay(env.host, session.store, jobs).results;
      AnswersFacts(env.host, jobs, results);
      CallsConcat(session.history, Answers(env.host, jobs, results));
      StartDistinct(env, session.conversationId, env.defaultSystem, done.s);
    }
  }

  lemma ServeDistinct(env: Env, session: Session, request: AgentLoop.Request)
    requires FreshModel(env) && DistinctIds(Calls(session.history))
    ensures DistinctIds(Calls(Serve(env, session, request).0.history))
  {
    match request
    case Chat(text, system) =>
      UserMessagePending(session.history, text);
      StartDistinct(env, session.conversationId, system.GetOr(env.defaultSystem), ChatStart(session, text));
    case Approve(decisions) =>
      var checked := CheckApproval(env.host.registry, session.history, decisions);
      if checked.Jobs? {
        ApproveDistinct(env, session, checked.jobs);
      }
  }

  // ------------------------------------------------------------- whole runs

  /** How many approvals of the run ran the guarded call `id` and then threw. */
  function LostRuns(env: Env, session: Session, requests: seq<AgentLoop.Request>, id: string): nat
    decreases |requests|
  {
    if requests == [] then 0
    else
      var (next, served) := Serve(env, session, requests[0]);
      var ran := Runs(env.host.registry, next.trace, id) > Runs(env.host.registry, session.trace, id);
      (if served.Crashed? && ran then 1 else 0)
      + LostRuns(env, next, requests[1..], id)
  }

  /** How many approvals of the run ran the guarded call `id` and returned. */
  function KeptRuns(env: Env, session: Session, requests: seq<AgentLoop.Request>, id: string): nat
    decreases |requests|
  {
    if requests == [] then 0
    else
      var (next, served) := Serve(env, session, requests[0]);
      var ran := Runs(env.host.registry, next.trace, id) > Runs(env.host.registry, session.trace, id);
      (if served.Responded? && ran then 1 else 0)
      + KeptRuns(env, next, requests[1..], id)
  }

  /** Over every run with new ids, a guarded call runs exactly once for each approval
      that ran it and returned, and once for each that ran it and threw. Of the
      former there is at most one, and none once the call is answered. */
  lemma {:induction false} GuardedCallRunsOnce(env: Env, session: Session, requests: seq<AgentLoop.Request>, id: string)
    requires FreshModel(env) && DistinctIds(Calls(session.history))
    ensures Runs(env.host.registry, Run(env, session, requests).trace, id)
         == Runs(env.host.registry, session.trace, id)
            + KeptRuns(env, session, requests, id) + LostRuns(env, session, requests, id)
    ensures KeptRuns(env, session, requests, id) <= if id in Answered(session.history) then 0 else 1
    decreases |requests|
  {
    if requests != [] {
      var (next, served) := Serve(env, session, requests[0]);
      UnansweredDistinct(Calls(session.history), Answered(session.history));
      ServeRuns(env, session, requests[0], id);
      ServeDistinct(env, session, requests[0]);
      ServeAppends(env, session, requests[0]);
      AnsweredGrows(session.history, next.history);
      if served.Responded? && requests[0].Approve? {
        ApprovalAnswers(env, session, requests[0].decisions);
      }
      GuardedCallRunsOnce(env, next, requests[1..], id);
    }
  }

  /** A denied call is final: after the approval returns, no guarded tool runs for
      its id in any further requests, whatever ids the model uses. */
  lemma {:induction false} AnsweredNeverRuns(env: Env, session: Session, requests: seq<AgentLoop.Request>, id: string)
    requires id in Answered(session.history)
    ensures Runs(env.host.registry, Run(env, session, requests).trace, id) == Runs(env.host.registry, session.trace, id)
    decreases |requests|
  {
    if requests != [] {
      var registry := env.host.registry;
      var next := Serve(env, session, requests[0]).0;
      ServeIsPermitted(env, session, requests[0]);
      PendingKnown(session.history);
      assert forall c :: c in Pending(session.history) ==> c.id in Ids(Pending(session.history));
      AddsWeaker(session.trace, next.trace, e => Permitted(registry, session, requests[0], e),
                 e => RunsNothing(registry, id, e));
      RunsUnchanged(registry, session.trace, next.trace, id);
      ServeAppends(env, session, requests[0]);
      AnsweredGrows(session.history, next.history);
      AnsweredNeverRuns(env, next, requests[1..], id);
    }
  }

  // ------------------------------------------- the concrete lost approvals

  /** Three attempts per model call, a model that is down for the first six and ends
      its turn afterwards, and room in every budget. */
  ghost predicate Recovering(env: Env) {
    && env.maxRetries == 3
    && (forall n, request :: env.llm(n, request).Fails? <==> n < 6)
    && (forall n, request :: n >= 6 ==> env.llm(n, request).response.stopReason == EndTurn)
    && (forall n :: env.clock(n) == 0)
    && env.budget.maxIterations > 1 && env.budget.maxTotalTokens > 0 && env.budget.maxWallClockMs > 0
  }

  /** There is such an environment. */
  function RecoveringEnv(registry: Registry): (env: Env)
    ensures Recovering(env)
  {
    Env(Host(registry, json => "", TenantScope.Context(None, None)), [],
        (n, request) => if n < 6 then Fails("down") else Reply(LlmResponse("done", [], EndTurn, Usage(1, 1))),
        n => 0, LoopBudget(10, 200000, 120000), 3, "")
  }

  lemma RecoveringCall(env: Env, request: LlmRequest, used: nat)
    requires Recovering(env)
    ensures used in {0, 3} ==> CallLlm(env, request, used).outcome.Fails? && CallLlm(env, request, used).attempts == 3
    ensures used >= 6 ==> CallLlm(env, request, used).outcome == env.llm(used, request)
  {
    RetryIsFirstSuccess(env, request, used);
    if used in {0, 3} {
      assert AllFail(env, request, used, 3);
    }
    if used >= 6 {
      assert FirstSuccess(env, request, used, 0);
    }
  }

  /** A loop whose first ask ends it runs no tool. */
  lemma EndsAtFirstAsk(env: Env, f: Frame, s: LoopState)
    requires s.acc.iterations < env.budget.maxIterations && Budget(env, f, s).None?
    requires var o := Asking(env, f, s).outcome; o.Fails? || o.response.stopReason == EndTurn
    ensures var e := RunLoop(env, f, s);
      && e.s.store == s.store && e.s.meter.attempts == s.meter.attempts + Asking(env, f, s).attempts
      && (e.Aborted? <==> Asking(env, f, s).outcome.Fails?)
  {
  }

  /** The resumed loop while the model is down, and once it is up: no tool runs. */
  lemma ResumedLoop(env: Env, conversationId: string, system: string, s: LoopState)
    requires Recovering(env) && s.acc.iterations == 1 && s.acc.usage.Total() == 0
    requires s.meter.attempts in {0, 3} || s.meter.attempts >= 6
    ensures var e := StartLoop(env, conversationId, system, s);
      && e.s.store == s.store
      && (e.Aborted? <==> s.meter.attempts < 6)
      && (e.Aborted? ==> e.s.meter.attempts == s.meter.attempts + 3)
  {
    var f := Frame(conversationId, system, env.clock(s.meter.readings));
    var started := s.(meter := s.meter.(readings := s.meter.readings + 1));
    RecoveringCall(env, RequestOf(env, f, s.messages), s.meter.attempts);
    assert Budget(env, f, started).None?;
    EndsAtFirstAsk(env, f, started);
  }

  function Approval(call: ToolCall): AgentLoop.Request {
    Approve([Decision(call.id, true)])
  }

  lemma ApprovalJob(registry: Registry, call: ToolCall)
    requires NeedsApproval(registry, call.name)
    ensures CheckApproval(registry, PausedHistory(call), [Decision(call.id, true)]) == Jobs([Job(call, true)])
  {
    var d := Decision(call.id, true);
    PausedHistoryPending(call);
    assert HasCall([call], call.id) by {
      assert [call][0].id == call.id;
    }
    assert [d][1..] == [] && [call][1..] == [];
    assert Collect([call], [d], map[]) == Decisions(map[call.id := true]);
    assert Undecidable(registry, [call]) == Undecidable(registry, []);
    assert Effective([call], map[call.id := true]) == [Job(call, true)] + Effective([], map[call.id := true]);
  }

  /** What running the call once does to the tickets. */
  function Executed(host: Host, call: ToolCall, store: Tickets.Store): Tickets.Store
    requires Executable(host.registry, call)
  {
    host.registry[call.name].run(host.ctx, store, host.registry[call.name].parse(call.arguments).input).1
  }

  /** A guarded call whose arguments validate. */
  predicate Executable(registry: Registry, call: ToolCall) {
    NeedsApproval(registry, call.name) && registry[call.name].parse(call.arguments).Valid?
  }

  lemma OneDecided(env: Env, call: ToolCall, s: LoopState)
    requires Executable(env.host.registry, call)
    ensures var done := AnswerJobs(env, Decided, [Job(call, true)], s);
      && done.error.None?
      && done.s.store == Executed(env.host, call, s.store)
      && done.s.acc.iterations == s.acc.iterations && done.s.acc.usage == s.acc.usage && done.s.meter == s.meter
  {
    assert [Job(call, true)][1..] == [];
    AnswerJobsKeeps(env, Decided, [Job(call, true)], s);
  }

  lemma EndingResumes(env: Env, session: Session, jobs: seq<Job>, done: LoopState)
    requires AnswerJobs(env, Decided, jobs, ApproveStart(session)) == Answering(done, None)
    ensures ApproveEnding(env, session, jobs) == StartLoop(env, session.conversationId, env.defaultSystem, done)
  {
  }

  lemma EndingAfter(env: Env, session: Session, jobs: seq<Job>, done: LoopState)
    requires Recovering(env) && AnswerJobs(env, Decided, jobs, ApproveStart(session)) == Answering(done, None)
    requires done.acc.iterations == 1 && done.acc.usage.Total() == 0 && done.meter == session.meter
    requires session.meter.attempts in {0, 3} || session.meter.attempts >= 6
    ensures var e := ApproveEnding(env, session, jobs);
      && e.s.store == done.store
      && (e.Aborted? <==> session.meter.attempts < 6)
      && (e.Aborted? ==> e.s.meter.attempts == session.meter.attempts + 3)
  {
    EndingResumes(env, session, jobs, done);
    ResumedLoop(env, session.conversationId, env.defaultSystem, done);
  }

  lemma ApprovalDispatches(env: Env, call: ToolCall, session: Session)
    requires NeedsApproval(env.host.registry, call.name) && session.history == PausedHistory(call)
    ensures Runs(env.host.registry, Serve(env, session, Approval(call)).0.trace, call.id)
         == Runs(env.host.registry, session.trace, call.id) + 1
  {
    var registry, jobs := env.host.registry, [Job(call, true)];
    ApprovalJob(registry, call);
    ApproveRunsExactly(env, session, [Decision(call.id, true)], call.id);
    assert jobs[1..] == [] && DecidedCount(registry, jobs, call.id) == 1;
  }

  lemma ServesAfter(env: Env, session: Session, decisions: seq<Decision>, jobs: seq<Job>, done: LoopState)
    requires Recovering(env) && CheckApproval(env.host.registry, session.history, decisions) == Jobs(jobs)
    requires AnswerJobs(env, Decided, jobs, ApproveStart(session)) == Answering(done, None)
    requires done.acc.iterations == 1 && done.acc.usage.Total() == 0 && done.meter == session.meter
    requires session.meter.attempts in {0, 3} || session.meter.attempts >= 6
    ensures var (next, served) := Serve(env, session, Approve(decisions));
      && next.store == done.store
      && (if session.meter.attempts >= 6 then served.Responded?
          else served.Crashed? && next.meter.attempts == session.meter.attempts + 3 && next.history == session.history)
  {
    EndingAfter(env, session, jobs, done);
  }

  /** One approval of the paused call: its tool runs; while the model is down the
      approval throws and nothing is persisted, once it is up the approval returns. */
  lemma OneApproval(env: Env, call: ToolCall, session: Session)
    requires Recovering(env) && Executable(env.host.registry, call) && session.history == PausedHistory(call)
    requires session.meter.attempts in {0, 3} || session.meter.attempts >= 6
    ensures var (next, served) := Serve(env, session, Approval(call));
      && next.store == Executed(env.host, call, session.store)
      && (if session.meter.attempts >= 6 then served.Responded?
          else served.Crashed? && next.meter.attempts == session.meter.attempts + 3 && next.history == session.history)
  {
    var jobs := [Job(call, true)];
    var done := AnswerJobs(env, Decided, jobs, ApproveStart(session)).s;
    assert CheckApproval(env.host.registry, session.history, [Decision(call.id, true)]) == Jobs(jobs) by {
      ApprovalJob(env.host.registry, call);
    }
    assert AnswerJobs(env, Decided, jobs, ApproveStart(session)) == Answering(done, None)
      && done.acc.iterations == 1 && done.acc.usage.Total() == 0 && done.meter == session.meter
      && done.store == Executed(env.host, call, session.store) by {
      OneDecided(env, call, ApproveStart(session));
    }
    ServesAfter(env, session, [Decision(call.id, true)], jobs, done);
  }

  /** The bound of `GuardedCallRunsOnce` is met: three approvals of one paused call,
      two of them lost to a model that is down, execute its tool three times. */
  lemma LostApprovalsRunAgain(env: Env, call: ToolCall, store: Tickets.Store)
    requires Recovering(env) && Executable(env.host.registry, call)
    ensures var paused := Session("c", PausedHistory(call), PAUSED, store, Meter(0, 0, 0), []);
      var requests := [Approval(call), Approval(call), Approval(call)];
      var end := Run(env, paused, requests);
      && Runs(env.host.registry, end.trace, call.id) == 3
      && LostRuns(env, paused, requests, call.id) == 2 && KeptRuns(env, paused, requests, call.id) == 1
      && end.store == Executed(env.host, call, Executed(env.host, call, Executed(env.host, call, store)))
  {
    hide RunLoop;
    var paused := Session("c", PausedHistory(call), PAUSED, store, Meter(0, 0, 0), []);
    var once := Serve(env, paused, Approval(call)).0;
    var twice := Serve(env, once, Approval(call)).0;
    var thrice := Serve(env, twice, Approval(call)).0;
    OneApproval(env, call, paused);
    ApprovalDispatches(env, call, paused);
    OneApproval(env, call, once);
    ApprovalDispatches(env, call, once);
    OneApproval(env, call, twice);
    ApprovalDispatches(env, call, twice);
    var one, two, three := [Approval(call)], [Approval(call), Approval(call)],
        [Approval(call), Approval(call), Approval(call)];
    assert three[1..] == two && two[1..] == one && one[1..] == [];
    assert Run(env, twice, one) == Run(env, thrice, []) == thrice;
    assert Run(env, once, two) == Run(env, twice, one);
    assert LostRuns(env, twice, one, call.id) == LostRuns(env, thrice, [], call.id) == 0;
    assert KeptRuns(env, twice, one, call.id) == 1 + KeptRuns(env, thrice, [], call.id);
    assert LostRuns(env, once, two, call.id) == 1 && KeptRuns(env, once, two, call.id) == 1;
    assert Runs(env.host.registry, paused.trace, call.id) == 0;
  }
}
