/**
 The approval protocol over whole runs: which approvals are accepted, that their
 order is irrelevant, that the stored history only grows and fixes the status, and
 that answered decisions cannot be replayed.
 */
module Approvals {
  import opened Prelude
  import opened LlmTypes
  import opened Tools
  import opened AgentLoop
  import opened AgentShape
  import opened PendingCalls

  // ------------------------------------------------ which approvals are accepted

  /** Distinct decisions, each on a pending call. */
  ghost predicate ValidDecisions(pending: seq<ToolCall>, decisions: seq<Decision>) {
    && (forall i, j :: 0 <= i < j < |decisions| ==> decisions[i].toolCallId != decisions[j].toolCallId)
    && (forall d :: d in decisions ==> HasCall(pending, d.toolCallId))
  }

  lemma ValidHead(pending: seq<ToolCall>, d: Decision, rest: seq<Decision>)
    ensures ValidDecisions(pending, [d] + rest) <==>
      && ValidDecisions(pending, rest)
      && HasCall(pending, d.toolCallId)
      && forall e :: e in rest ==> e.toolCallId != d.toolCallId
  {
    var all := [d] + rest;
    assert forall e :: e in all <==> e == d || e in rest;
    if ValidDecisions(pending, all) {
      assert all[0] == d && forall i :: 0 <= i < |rest| ==> all[i + 1] == rest[i];
      forall e | e in rest ensures e.toolCallId != d.toolCallId {
        var i :| 0 <= i < |rest| && rest[i] == e;
        assert all[i + 1] == e;
      }
      forall i, j | 0 <= i < j < |rest| ensures rest[i].toolCallId != rest[j].toolCallId {
        assert all[i + 1] == rest[i] && all[j + 1] == rest[j];
      }
    } else {
      assert all[0] == d && forall i :: 1 <= i < |all| ==> all[i] == rest[i - 1];
    }
  }

  lemma {:induction false} CollectAccepts(pending: seq<ToolCall>, decisions: seq<Decision>, byId: map<string, bool>)
    ensures Collect(pending, decisions, byId).Decisions?
       <==> ValidDecisions(pending, decisions) && forall d :: d in decisions ==> d.toolCallId !in byId
    decreases |decisions|
  {
    if decisions != [] {
      var d, rest := decisions[0], decisions[1..];
      assert decisions == [d] + rest;
      ValidHead(pending, d, rest);
      assert forall e :: e in decisions <==> e == d || e in rest;
      if d.toolCallId !in byId && HasCall(pending, d.toolCallId) {
        CollectAccepts(pending, rest, byId[d.toolCallId := d.approved]);
      }
    }
  }

  lemma {:induction false} CollectReasons(pending: seq<ToolCall>, decisions: seq<Decision>, byId: map<string, bool>)
    ensures var c := Collect(pending, decisions, byId);
      c.Bad? ==> c.reason.DuplicateDecision? || c.reason.UnknownToolCall?
    decreases |decisions|
  {
    if decisions != [] {
      CollectReasons(pending, decisions[1..], byId[decisions[0].toolCallId := decisions[0].approved]);
    }
  }

  /** The decision a refusal names: all before it are fine, and it repeats one of them
      or is on a call that is not pending, told apart by the reason. */
  ghost predicate Offends(pending: seq<ToolCall>, decisions: seq<Decision>, i: nat, reason: BadRequest)
    requires i < |decisions|
  {
    var repeats := exists j :: 0 <= j < i && decisions[j].toolCallId == decisions[i].toolCallId;
    && ValidDecisions(pending, decisions[..i])
    && (if repeats then reason == DuplicateDecision(decisions[i].toolCallId)
        else !HasCall(pending, decisions[i].toolCallId) && reason == UnknownToolCall(decisions[i].toolCallId))
  }

  /** Reading the decisions one by one, with those before `k` fine and in the table. */
  lemma {:induction false} FirstOffence(pending: seq<ToolCall>, decisions: seq<Decision>, k: nat,
                                        byId: map<string, bool>)
    requires k <= |decisions| && ValidDecisions(pending, decisions[..k])
    requires forall id :: id in byId <==> exists j :: 0 <= j < k && decisions[j].toolCallId == id
    requires Collect(pending, decisions[k..], byId).Bad?
    ensures var reason := Collect(pending, decisions[k..], byId).reason;
      exists i :: 0 <= i < |decisions| && Offends(pending, decisions, i, reason)
    decreases |decisions| - k
  {
    var d := decisions[k];
    assert decisions[k..][0] == d && decisions[k..][1..] == decisions[k + 1..];
    if d.toolCallId in byId || !HasCall(pending, d.toolCallId) {
      assert Offends(pending, decisions, k, Collect(pending, decisions[k..], byId).reason);
    } else {
      var next := byId[d.toolCallId := d.approved];
      assert decisions[..k + 1] == decisions[..k] + [d];
      forall id ensures id in next <==> exists j :: 0 <= j < k + 1 && decisions[j].toolCallId == id {
        if id == d.toolCallId {
          assert decisions[k].toolCallId == id;
        }
      }
      FirstOffence(pending, decisions, k + 1, next);
    }
  }

  /** Every refusal names its true reason: nothing pending; or the first decision that
      repeats one or is on no pending call; or, the decisions being fine, a pending
      call outside the approval flow. */
  lemma RefusalExactly(registry: Registry, history: seq<ChatMessage>, decisions: seq<Decision>)
    requires CheckApproval(registry, history, decisions).Refusal?
    ensures var reason := CheckApproval(registry, history, decisions).reason;
      var pending := Pending(history);
      && (reason.NoPendingCalls? <==> pending == [])
      && (reason.NotInApprovalFlow? ==>
            && ValidDecisions(pending, decisions)
            && exists c :: c in pending && c.name == reason.name && !NeedsApproval(registry, c.name))
      && (reason.DuplicateDecision? || reason.UnknownToolCall? ==>
            exists i :: 0 <= i < |decisions| && Offends(pending, decisions, i, reason))
  {
    var pending := Pending(history);
    CollectAccepts(pending, decisions, map[]);
    if pending != [] {
      if Collect(pending, decisions, map[]).Bad? {
        assert decisions[0..] == decisions;
        CollectReasons(pending, decisions, map[]);
        FirstOffence(pending, decisions, 0, map[]);
      } else {
        FirstUndecidable(registry, pending);
      }
    }
  }

  lemma {:induction false} FirstUndecidable(registry: Registry, pending: seq<ToolCall>)
    ensures Undecidable(registry, pending).Some? ==>
      && Undecidable(registry, pending).value.NotInApprovalFlow?
      && exists c :: c in pending && c.name == Undecidable(registry, pending).value.name
          && !NeedsApproval(registry, c.name)
  {
    if pending != [] {
      if NeedsApproval(registry, pending[0].name) {
        FirstUndecidable(registry, pending[1..]);
        if Undecidable(registry, pending).Some? {
          var c :| c in pending[1..] && c.name == Undecidable(registry, pending).value.name
              && !NeedsApproval(registry, c.name);
          assert c in pending;
        }
      } else {
        assert pending[0] in pending;
      }
    }
  }

  /** Collected decisions are a lookup table of the decisions. */
  lemma {:induction false} CollectMaps(pending: seq<ToolCall>, decisions: seq<Decision>, byId: map<string, bool>)
    requires Collect(pending, decisions, byId).Decisions?
    ensures var m := Collect(pending, decisions, byId).byId;
      && (forall k :: k in byId ==> k in m && m[k] == byId[k])
      && (forall d :: d in decisions ==> d.toolCallId in m && m[d.toolCallId] == d.approved)
      && (forall k :: k in m && k !in byId ==> Decision(k, m[k]) in decisions)
    decreases |decisions|
  {
    if decisions != [] {
      var d, rest := decisions[0], decisions[1..];
      CollectMaps(pending, rest, byId[d.toolCallId := d.approved]);
      assert forall e :: e in decisions <==> e == d || e in rest;
    }
  }

  lemma {:induction false} UndecidableExactly(registry: Registry, pending: seq<ToolCall>)
    ensures Undecidable(registry, pending).None? <==> forall c :: c in pending ==> NeedsApproval(registry, c.name)
  {
    if pending != [] {
      UndecidableExactly(registry, pending[1..]);
      assert forall c :: c in pending <==> c == pending[0] || c in pending[1..];
    }
  }

  /** An approval is accepted exactly when something is pending, only guarded
      tools are, and the decisions are distinct and on pending calls. A pending
      call becomes a job to run exactly when a decision approves its id. */
  lemma AcceptedExactly(registry: Registry, history: seq<ChatMessage>, decisions: seq<Decision>)
    ensures var checked := CheckApproval(registry, history, decisions);
      && (checked.Jobs? <==>
            && Pending(history) != []
            && AllDecidable(registry, history)
            && ValidDecisions(Pending(history), decisions))
      && (checked.Jobs? ==>
            && JobCalls(checked.jobs) == Pending(history)
            && forall j :: j in checked.jobs ==>
                 j.call in Pending(history) && (j.run <==> Decision(j.call.id, true) in decisions))
  {
    var pending := Pending(history);
    CollectAccepts(pending, decisions, map[]);
    UndecidableExactly(registry, pending);
    var c := Collect(pending, decisions, map[]);
    if c.Decisions? {
      CollectMaps(pending, decisions, map[]);
      EffectiveCalls(pending, c.byId);
    }
  }

  lemma StartDecidable(env: Env, conversationId: string, system: string, s: LoopState)
    requires AllDecidable(env.host.registry, s.messages)
    ensures var e := StartLoop(env, conversationId, system, s);
      e.Ended? ==> AllDecidable(env.host.registry, e.s.messages)
  {
    hide RunLoop;
    var f := Frame(conversationId, system, env.clock(s.meter.readings));
    LoopDecidable(env, f, s.(meter := s.meter.(readings := s.meter.readings + 1)));
  }

  lemma ServeDecidable(env: Env, session: Session, request: Request)
    requires AllDecidable(env.host.registry, session.history)
    ensures AllDecidable(env.host.registry, Serve(env, session, request).0.history)
  {
    match request
    case Chat(text, system) =>
      UserMessagePending(session.history, text);
      StartDecidable(env, session.conversationId, system.GetOr(env.defaultSystem), ChatStart(session, text));
    case Approve(decisions) =>
      var checked := CheckApproval(env.host.registry, session.history, decisions);
      if checked.Jobs? {
        AcceptedJobs(env.host.registry, session.history, decisions);
        var done := AnswerJobs(env, Decided, checked.jobs, ApproveStart(session));
        if done.error.None? {
          ApprovalClears(env, session, checked.jobs);
          StartDecidable(env, session.conversationId, env.defaultSystem, done.s);
        }
      }
  }

  /** Recoverability, for any ids: a conversation that starts with nothing pending
      only ever waits for guarded tools, so in every reachable state with something
      pending each duplicate-free subset of decisions on pending calls is accepted. */
  lemma {:induction false} EveryPauseRecovers(env: Env, session: Session, requests: seq<Request>,
                                              decisions: seq<Decision>)
    requires AllDecidable(env.host.registry, session.history)
    ensures var history := Run(env, session, requests).history;
      var checked := CheckApproval(env.host.registry, history, decisions);
      && AllDecidable(env.host.registry, history)
      && (checked.Jobs? <==> Pending(history) != [] && ValidDecisions(Pending(history), decisions))
      && (checked.Refusal? ==> !checked.reason.NotInApprovalFlow?)
    decreases |requests|
  {
    if requests == [] {
      AcceptedExactly(env.host.registry, session.history, decisions);
      UndecidableExactly(env.host.registry, Pending(session.history));
      CollectReasons(Pending(session.history), decisions, map[]);
    } else {
      ServeDecidable(env, session, requests[0]);
      EveryPauseRecovers(env, Serve(env, session, requests[0]).0, requests[1..], decisions);
    }
  }

  lemma AwaitsSomething(env: Env, session: Session, request: Request)
    ensures var served := Serve(env, session, request).1;
      served.Responded? && served.response.awaitingApproval.Some? ==> served.response.awaitingApproval.value != []
  {
    hide RunLoop;
    match request
    case Chat(text, system) =>
      StartStatus(env, session.conversationId, system.GetOr(env.defaultSystem), ChatStart(session, text));
    case Approve(decisions) =>
      var checked := CheckApproval(env.host.registry, session.history, decisions);
      if checked.Jobs? {
        var done := AnswerJobs(env, Decided, checked.jobs, ApproveStart(session));
        StartStatus(env, session.conversationId, env.defaultSystem, done.s);
      }
  }

  /** With new ids, a PAUSED conversation always has something pending. */
  lemma {:induction false} PausedAwaits(env: Env, session: Session, requests: seq<Request>)
    requires FreshModel(env)
    requires session.status == PAUSED ==> Pending(session.history) != []
    ensures Run(env, session, requests).status == PAUSED ==> Pending(Run(env, session, requests).history) != []
    decreases |requests|
  {
    if requests != [] {
      ServePending(env, session, requests[0]);
      ServeAppends(env, session, requests[0]);
      AwaitsSomething(env, session, requests[0]);
      PausedAwaits(env, Serve(env, session, requests[0]).0, requests[1..]);
    }
  }

  /** So a conversation left PAUSED accepts exactly the duplicate-free decisions on
      its pending calls, the empty list included; whatever is not approved is denied. */
  lemma PausedAccepts(env: Env, session: Session, requests: seq<Request>, decisions: seq<Decision>)
    requires FreshModel(env) && AllDecidable(env.host.registry, session.history)
    requires session.status == PAUSED ==> Pending(session.history) != []
    requires Run(env, session, requests).status == PAUSED
    ensures var history := Run(env, session, requests).history;
      var checked := CheckApproval(env.host.registry, history, decisions);
      && (checked.Jobs? <==> ValidDecisions(Pending(history), decisions))
      && (checked.Jobs? ==>
            && JobCalls(checked.jobs) == Pending(history)
            && forall j :: j in checked.jobs ==> (j.run <==> Decision(j.call.id, true) in decisions))
  {
    PausedAwaits(env, session, requests);
    EveryPauseRecovers(env, session, requests, decisions);
    AcceptedExactly(env.host.registry, Run(env, session, requests).history, decisions);
  }

  // ---------------------------------------------------- the order of decisions

  ghost predicate NoRepeat<T(!new)>(s: seq<T>) {
    forall x :: multiset(s)[x] <= 1
  }

  lemma {:induction false} NoRepeatExactly<T(!new)>(s: seq<T>)
    ensures NoRepeat(s) <==> NoDup(s)
  {
    if s != [] {
      var rest := s[1..];
      assert s == [s[0]] + rest;
      NoRepeatExactly(rest);
      assert multiset(s) == multiset{s[0]} + multiset(rest);
      if NoRepeat(s) {
        forall x ensures multiset(rest)[x] <= 1 {
          assert multiset(s)[x] <= 1;
        }
        forall i, j | 0 <= i < j < |s| ensures s[i] != s[j] {
          assert s[j] == rest[j - 1];
          if i == 0 {
            assert multiset(s)[s[0]] <= 1;
            assert s[0] !in multiset(rest);
            assert rest[j - 1] in multiset(rest);
          } else {
            assert s[i] == rest[i - 1];
          }
        }
      }
      if NoDup(s) {
        forall i, j | 0 <= i < j < |rest| ensures rest[i] != rest[j] {
          assert rest[i] == s[i + 1] && rest[j] == s[j + 1];
        }
        forall x ensures multiset(s)[x] <= 1 {
          assert multiset(rest)[x] <= 1;
          assert s[0] !in rest by {
            assert forall j :: 0 <= j < |rest| ==> rest[j] == s[j + 1];
          }
        }
      }
    }
  }

  lemma ValidAsSet(pending: seq<ToolCall>, decisions: seq<Decision>)
    ensures ValidDecisions(pending, decisions) <==>
      && NoRepeat(decisions)
      && (forall d, e :: d in decisions && e in decisions && d.toolCallId == e.toolCallId ==> d == e)
      && (forall d :: d in decisions ==> HasCall(pending, d.toolCallId))
  {
    NoRepeatExactly(decisions);
    if ValidDecisions(pending, decisions) {
      forall d, e | d in decisions && e in decisions && d.toolCallId == e.toolCallId ensures d == e {
        var i :| 0 <= i < |decisions| && decisions[i] == d;
        var j :| 0 <= j < |decisions| && decisions[j] == e;
        assert i == j;
      }
    }
  }

  lemma {:induction false} SameRunsSameJobs(a: seq<Job>, b: seq<Job>)
    requires JobCalls(a) == JobCalls(b)
    requires forall j, k :: j in a && k in b && j.call == k.call ==> j.run == k.run
    ensures a == b
  {
    if a != [] {
      assert b != [];
      assert JobCalls(a) == [a[0].call] + JobCalls(a[1..]);
      assert JobCalls(b) == [b[0].call] + JobCalls(b[1..]);
      assert JobCalls(a)[1..] == JobCalls(a[1..]) && JobCalls(b)[1..] == JobCalls(b[1..]);
      assert JobCalls(a)[0] == a[0].call && JobCalls(b)[0] == b[0].call;
      SameRunsSameJobs(a[1..], b[1..]);
      assert a[0] == b[0];
    }
  }

  lemma CheckOrderIrrelevant(registry: Registry, history: seq<ChatMessage>, ds: seq<Decision>, es: seq<Decision>)
    requires multiset(ds) == multiset(es)
    ensures var cd, ce := CheckApproval(registry, history, ds), CheckApproval(registry, history, es);
      if cd.Jobs? then cd == ce else ce.Refusal?
  {
    assert forall d :: d in ds <==> d in multiset(ds);
    assert forall d :: d in es <==> d in multiset(es);
    ValidAsSet(Pending(history), ds);
    ValidAsSet(Pending(history), es);
    AcceptedExactly(registry, history, ds);
    AcceptedExactly(registry, history, es);
    var cd := CheckApproval(registry, history, ds);
    if cd.Jobs? {
      SameRunsSameJobs(cd.jobs, CheckApproval(registry, history, es).jobs);
    }
  }

  /** The order of the decisions is irrelevant: permuted decisions are both
      refused without effect, or both accepted with the same response and state. */
  lemma DecisionOrderIrrelevant(env: Env, session: Session, ds: seq<Decision>, es: seq<Decision>)
    requires multiset(ds) == multiset(es)
    ensures var (sd, rd) := Serve(env, session, Approve(ds));
      var (se, re) := Serve(env, session, Approve(es));
      if rd.Refused? then re.Refused? && sd == se == session else sd == se && rd == re
  {
    CheckOrderIrrelevant(env.host.registry, session.history, ds, es);
  }

  // ----------------------------------------------------- the store only grows

  lemma {:induction false} LoopAppends(env: Env, f: Frame, s: LoopState)
    ensures var e := RunLoop(env, f, s);
      e.Ended? ==> s.messages <= e.s.messages
    decreases env.budget.maxIterations - s.acc.iterations
  {
    if s.acc.iterations < env.budget.maxIterations {
      IterateAdvances(env, f, s);
      IterateCases(env, f, s);
      var step := Iterate(env, f, s);
      if HasBatch(env, f, s) && Survives(step) {
        BatchShape(env, f, BatchStart(env, f, s), BatchReply(env, f, s));
        SafeShape(env, BatchStart(env, f, s), BatchReply(env, f, s));
      }
      if step.Continue? {
        LoopAppends(env, f, step.s);
      }
    }
  }

  lemma StartAppends(env: Env, conversationId: string, system: string, s: LoopState)
    ensures var e := StartLoop(env, conversationId, system, s);
      e.Ended? ==> s.messages <= e.s.messages
  {
    hide RunLoop;
    var f := Frame(conversationId, system, env.clock(s.meter.readings));
    LoopAppends(env, f, s.(meter := s.meter.(readings := s.meter.readings + 1)));
  }

  /** One request keeps the stored history as a prefix. A request that does not
      return leaves history and status untouched; one that does sets the status
      to PAUSED exactly when its response awaits approval, else to COMPLETED. */
  lemma ServeAppends(env: Env, session: Session, request: Request)
    ensures var (next, served) := Serve(env, session, request);
      && session.history <= next.history
      && (served.Responded? ==>
            next.status == (if served.response.awaitingApproval.Some? then PAUSED else COMPLETED))
      && (!served.Responded? ==> next.history == session.history && next.status == session.status)
      && (served.Refused? ==> next == session)
  {
    match request
    case Chat(text, system) =>
      StartAppends(env, session.conversationId, system.GetOr(env.defaultSystem), ChatStart(session, text));
      StartStatus(env, session.conversationId, system.GetOr(env.defaultSystem), ChatStart(session, text));
    case Approve(decisions) =>
      var checked := CheckApproval(env.host.registry, session.history, decisions);
      if checked.Jobs? {
        AcceptedJobs(env.host.registry, session.history, decisions);
        var done := AnswerJobs(env, Decided, checked.jobs, ApproveStart(session));
        if done.error.None? {
          ApprovalClears(env, session, checked.jobs);
          StartAppends(env, session.conversationId, env.defaultSystem, done.s);
          StartStatus(env, session.conversationId, env.defaultSystem, done.s);
        }
      }
  }

  /** The last response of a run, if any request returned. */
  function LastResponse(env: Env, session: Session, requests: seq<Request>, last: Option<ChatResponse>)
    : Option<ChatResponse>
    decreases |requests|
  {
    if requests == [] then last
    else
      var (next, served) := Serve(env, session, requests[0]);
      LastResponse(env, next, requests[1..], if served.Responded? then Some(served.response) else last)
  }

  function StatusAfter(last: Option<ChatResponse>): ConversationStatus {
    match last
    case None => ACTIVE
    case Some(response) => if response.awaitingApproval.Some? then PAUSED else COMPLETED
  }

  /** Over every run the history only grows, and the status is a function of the
      last response: ACTIVE exactly while no request has returned. */
  lemma {:induction false} StatusAutomaton(env: Env, session: Session, requests: seq<Request>,
                                           last: Option<ChatResponse>)
    requires session.status == StatusAfter(last)
    ensures var end := Run(env, session, requests);
      && session.history <= end.history
      && end.status == StatusAfter(LastResponse(env, session, requests, last))
      && (end.status == ACTIVE <==> LastResponse(env, session, requests, last).None?)
    decreases |requests|
  {
    if requests != [] {
      var (next, served) := Serve(env, session, requests[0]);
      ServeAppends(env, session, requests[0]);
      StatusAutomaton(env, next, requests[1..], if served.Responded? then Some(served.response) else last);
    }
  }

  // ------------------------------------------------------------ answers are final

  lemma AnsweredGrows(a: seq<ChatMessage>, b: seq<ChatMessage>)
    requires a <= b
    ensures Answered(a) <= Answered(b)
  {
    assert b == a + b[|a|..];
    AnsweredConcat(a, b[|a|..]);
  }

  lemma {:induction false} RunAppends(env: Env, session: Session, requests: seq<Request>)
    ensures session.history <= Run(env, session, requests).history
    decreases |requests|
  {
    if requests != [] {
      ServeAppends(env, session, requests[0]);
      RunAppends(env, Serve(env, session, requests[0]).0, requests[1..]);
    }
  }

  /** A returned approval answers every call that was pending. */
  lemma ApprovalAnswers(env: Env, session: Session, decisions: seq<Decision>)
    requires Serve(env, session, Approve(decisions)).1.Responded?
    ensures Ids(Pending(session.history)) <= Answered(Serve(env, session, Approve(decisions)).0.history)
  {
    AcceptedJobs(env.host.registry, session.history, decisions);
    var jobs := CheckApproval(env.host.registry, session.history, decisions).jobs;
    var done := AnswerJobs(env, Decided, jobs, ApproveStart(session));
    ApprovalClears(env, session, jobs);
    StartAppends(env, session.conversationId, env.defaultSystem, done.s);
    AnsweredGrows(done.s.messages, Serve(env, session, Approve(decisions)).0.history);
  }

  lemma AnsweredIsNotPending(history: seq<ChatMessage>, id: string)
    requires id in Answered(history)
    ensures !HasCall(Pending(history), id)
  {
    UnansweredMembers(Calls(history), Answered(history));
    assert forall i :: 0 <= i < |Pending(history)| ==> Pending(history)[i] in Pending(history);
  }

  /** Once an approval with decisions has returned, any continuation of its history refuses them. */
  lemma AnsweredRefused(env: Env, again: Env, session: Session, now: Session, decisions: seq<Decision>)
    requires decisions != [] && Serve(env, session, Approve(decisions)).1.Responded?
    requires Serve(env, session, Approve(decisions)).0.history <= now.history
    ensures Serve(again, now, Approve(decisions)).1.Refused?
  {
    var d := decisions[0];
    assert d in decisions;
    AcceptedExactly(env.host.registry, session.history, decisions);
    var i :| 0 <= i < |Pending(session.history)| && Pending(session.history)[i].id == d.toolCallId;
    assert Pending(session.history)[i] in Pending(session.history);
    ApprovalAnswers(env, session, decisions);
    AnsweredGrows(Serve(env, session, Approve(decisions)).0.history, now.history);
    AnsweredIsNotPending(now.history, d.toolCallId);
    AcceptedExactly(again.host.registry, now.history, decisions);
  }

  /** Replay safety, for any ids: once an approval with decisions has returned, the
      same decisions are refused, without any effect, after any further requests. */
  lemma ReplayIsRefused(env: Env, session: Session, decisions: seq<Decision>, later: seq<Request>)
    requires decisions != []
    requires Serve(env, session, Approve(decisions)).1.Responded?
    ensures var then' := Run(env, Serve(env, session, Approve(decisions)).0, later);
      Serve(env, then', Approve(decisions)).0 == then' && Serve(env, then', Approve(decisions)).1.Refused?
  {
    var after := Serve(env, session, Approve(decisions)).0;
    RunAppends(env, after, later);
    AnsweredRefused(env, env, session, Run(env, after, later), decisions);
  }
}
