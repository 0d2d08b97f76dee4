/**
 What a response reports and the history records about each answered call, field
 by field, written apart from the functions that build them.
 */
module Reports {
  import opened Prelude
  import opened LlmTypes
  import opened Tickets
  import opened Tools
  import opened AgentLoop
  import opened AgentShape
  import opened PendingCalls
  import opened Approvals
  import opened GuardedTools
  import opened Audit

  /** How an error code is spelled. */
  predicate Spells(text: string, code: ToolErrorCode) {
    match code
    case NOT_FOUND => text == "NOT_FOUND"
    case VALIDATION_ERROR => text == "VALIDATION_ERROR"
    case INTERNAL_ERROR => text == "INTERNAL_ERROR"
    case REJECTED_BY_USER => text == "REJECTED_BY_USER"
  }

  /** The value shows the result: its data, or an object of its code and message. */
  predicate Shows(json: Json, r: ToolResult) {
    match r
    case Success(data) => json == data
    case Failed(error) =>
      && json.JObject? && json.fields.Keys == {"code", "message"}
      && json.fields["message"] == JString(error.message)
      && json.fields["code"].JString? && Spells(json.fields["code"].s, error.code)
  }

  lemma ResultIsShown(r: ToolResult)
    ensures Shows(ResultJson(r), r)
  {
  }

  /** The i-th record and the i-th tool message of answered jobs. */
  lemma {:induction false} RecordAt(host: Host, jobs: seq<Job>, results: seq<ToolResult>, i: nat)
    requires |jobs| == |results| && i < |jobs|
    ensures |Records(jobs, results)| == |Answers(host, jobs, results)| == |JobCalls(jobs)| == |jobs|
    ensures JobCalls(jobs)[i] == jobs[i].call
    ensures var record := Records(jobs, results)[i];
      && record.id == jobs[i].call.id && record.name == jobs[i].call.name
      && (record.success <==> results[i].Success?)
      && Shows(record.result, results[i])
      && Answers(host, jobs, results)[i]
           == ChatMessage(ToolRole, host.stringify(record.result), None, Some(jobs[i].call.id))
    decreases |jobs|
  {
    RecordsLength(jobs, results);
    AnswersFacts(host, jobs, results);
    if i == 0 {
      ResultIsShown(results[0]);
    } else {
      RecordAt(host, jobs[1..], results[1..], i - 1);
    }
  }

  /** Every returned response, entry by entry: the i-th report is about the i-th call,
      says success exactly when the i-th replayed result is one, and shows that
      result; and the i-th tool message the request appended answers that call with
      the same value, printed. */
  lemma ReportsExactly(env: Env, session: Session, request: AgentLoop.Request, i: nat)
    requires Serve(env, session, request).1.Responded?
    requires i < |Serve(env, session, request).1.response.toolResults|
    ensures var (next, served) := Serve(env, session, request);
      var r := served.response;
      var jobs := AuditJobs(env, session, request,
                            if |r.toolResults| <= |r.toolCalls| then r.toolCalls[..|r.toolResults|] else []);
      var replayed := Replay(env.host, session.store, jobs).results;
      var before, after := |ToolMessages(session.history)|, ToolMessages(next.history);
      && |r.toolResults| == |replayed| <= |r.toolCalls|
      && r.toolResults[i].id == r.toolCalls[i].id && r.toolResults[i].name == r.toolCalls[i].name
      && (r.toolResults[i].success <==> replayed[i].Success?)
      && Shows(r.toolResults[i].result, replayed[i])
      && |after| == before + |r.toolResults|
      && after[before + i]
           == ChatMessage(ToolRole, env.host.stringify(r.toolResults[i].result), None, Some(r.toolCalls[i].id))
  {
    hide Serve, Replay;
    ResponsesAudit(env, session, request);
    var (next, served) := Serve(env, session, request);
    var r := served.response;
    var answered := r.toolCalls[..|r.toolResults|];
    var jobs := AuditJobs(env, session, request, answered);
    var replayed := Replay(env.host, session.store, jobs).results;
    RecordsLength(jobs, replayed);
    RecordAt(env.host, jobs, replayed, i);
    assert r.toolCalls[i] == answered[i] == jobs[i].call;
  }

  /** The i-th replayed result is what its own call settles as on the tickets the
      earlier ones leave: a rejected promise counts as an unexpected failure. */
  lemma {:induction false} ReplayAt(host: Host, store: Store, jobs: seq<Job>, i: nat)
    requires i < |jobs| && jobs[i].run
    ensures var earlier := Replay(host, store, jobs[..i]).store;
      var settled := Execute(host, earlier, jobs[i].call.name, jobs[i].call.arguments).settled;
      Replay(host, store, jobs).results[i]
        == match settled
           case Fulfilled(result) => result
           case Rejected(_) => Failed(ToolError(INTERNAL_ERROR, "Tool execution failed unexpectedly"))
    decreases |jobs|
  {
    if i > 0 {
      var call := jobs[0].call;
      assert jobs[..i][1..] == jobs[1..][..i - 1] && jobs[..i][0] == jobs[0];
      ReplayAt(host, if jobs[0].run then Execute(host, store, call.name, call.arguments).store else store,
               jobs[1..], i - 1);
    } else {
      assert jobs[..0] == [];
    }
  }

  /** A read-only call whose promise rejects does not end the request: it is reported
      in its place, without success, as an internal error, and so is its tool message. */
  lemma RejectionIsReported(env: Env, s: LoopState, jobs: seq<Job>, i: nat)
    requires i < |jobs| && jobs[i].run
    requires Execute(env.host, Replay(env.host, s.store, jobs[..i]).store, jobs[i].call.name,
                     jobs[i].call.arguments).settled.Rejected?
    ensures var (end, error) := (AnswerJobs(env, ReadOnly, jobs, s).s, AnswerJobs(env, ReadOnly, jobs, s).error);
      var at, message := |s.acc.toolResults| + i, |s.messages| + i;
      && error.None? && |end.acc.toolResults| == |s.acc.toolResults| + |jobs|
      && |end.messages| == |s.messages| + |jobs|
      && end.acc.toolResults[at].id == jobs[i].call.id && !end.acc.toolResults[at].success
      && Shows(end.acc.toolResults[at].result,
               Failed(ToolError(INTERNAL_ERROR, "Tool execution failed unexpectedly")))
      && end.messages[message] == ChatMessage(ToolRole, env.host.stringify(end.acc.toolResults[at].result), None,
                                              Some(jobs[i].call.id))
  {
    var results := Replay(env.host, s.store, jobs).results;
    ReadOnlyNeverStops(env, jobs, s);
    AnswerJobsIsReplay(env, ReadOnly, jobs, s);
    ReplayAt(env.host, s.store, jobs, i);
    RecordAt(env.host, jobs, results, i);
  }

  /** What an approval reports of a call it was not told to run: no success, the code
      of a denial; and nothing ran for it. */
  lemma DeniedIsReported(env: Env, session: Session, decisions: seq<Decision>, i: nat)
    requires Serve(env, session, Approve(decisions)).1.Responded?
    requires i < |Pending(session.history)| && Decision(Pending(session.history)[i].id, true) !in decisions
    ensures var r := Serve(env, session, Approve(decisions)).1.response;
      && i < |r.toolResults| <= |r.toolCalls| && r.toolCalls[i] == Pending(session.history)[i]
      && r.toolResults[i].id == Pending(session.history)[i].id
      && !r.toolResults[i].success
      && r.toolResults[i].result.JObject? && "code" in r.toolResults[i].result.fields
      && r.toolResults[i].result.fields["code"] == JString("REJECTED_BY_USER")
  {
    hide Serve, Replay;
    var request := Approve(decisions);
    ResponsesAudit(env, session, request);
    var r := Serve(env, session, request).1.response;
    var jobs := AuditJobs(env, session, request, r.toolCalls[..|r.toolResults|]);
    DecidedJob(env.host.registry, session.history, decisions, i);
    RecordsLength(jobs, Replay(env.host, session.store, jobs).results);
    DeniedAreNoOps(env.host, session.store, jobs);
    RecordAt(env.host, jobs, Replay(env.host, session.store, jobs).results, i);
    ReportsExactly(env, session, request, i);
  }

  /** The i-th decided job is the i-th pending call. */
  lemma DecidedJob(registry: Registry, history: seq<ChatMessage>, decisions: seq<Decision>, i: nat)
    requires CheckApproval(registry, history, decisions).Jobs? && i < |Pending(history)|
    ensures var jobs := CheckApproval(registry, history, decisions).jobs;
      && |jobs| == |Pending(history)| && jobs[i].call == Pending(history)[i]
      && (jobs[i].run <==> Decision(Pending(history)[i].id, true) in decisions)
  {
    var jobs := CheckApproval(registry, history, decisions).jobs;
    AcceptedExactly(registry, history, decisions);
    JobCallsAt(jobs, i);
    assert jobs[i] in jobs;
  }

  lemma {:induction false} JobCallsAt(jobs: seq<Job>, i: nat)
    requires i < |JobCalls(jobs)|
    ensures |JobCalls(jobs)| == |jobs| && JobCalls(jobs)[i] == jobs[i].call
  {
    if i > 0 {
      JobCallsAt(jobs[1..], i - 1);
    } else if |jobs| > 1 {
      assert |JobCalls(jobs[1..])| > 0;
      JobCallsAt(jobs[1..], 0);
    }
  }

  // ------------------------------------------------------------ announcements

  function Announced(trace: seq<Event>): seq<Event> {
    if trace == [] then []
    else (if Announces(trace[0]) then [trace[0]] else []) + Announced(trace[1..])
  }

  /** What is announced for pending calls: granted for the approved, denied for all others. */
  function Announcements(pending: seq<ToolCall>, decisions: seq<Decision>): seq<Event> {
    if pending == [] then []
    else
      [if Decision(pending[0].id, true) in decisions then ApprovalGranted(pending[0], 1)
          else ApprovalDenied(pending[0], 1)]
      + Announcements(pending[1..], decisions)
  }

  lemma {:induction false} AnnouncedConcat(a: seq<Event>, b: seq<Event>)
    ensures Announced(a + b) == Announced(a) + Announced(b)
  {
    if a == [] {
      assert a + b == b;
    } else {
      HeadOfSum(a, b);
      AnnouncedConcat(a[1..], b);
      Associative(if Announces(a[0]) then [a[0]] else [], Announced(a[1..]), Announced(b));
    }
  }

  lemma {:induction false} NothingAnnounced(more: seq<Event>)
    requires forall i :: 0 <= i < |more| ==> !Announces(more[i])
    ensures Announced(more) == []
  {
    if more != [] {
      NothingAnnounced(more[1..]);
    }
  }

  lemma {:induction false} DecidedAnnounced(jobs: seq<Job>, decisions: seq<Decision>)
    requires forall j :: j in jobs ==> (j.run <==> Decision(j.call.id, true) in decisions)
    ensures Announced(JobEvents(Decided, jobs, 1)) == Announcements(JobCalls(jobs), decisions)
  {
    if jobs != [] {
      var job, rest := jobs[0], jobs[1..];
      assert job in jobs && forall j :: j in rest ==> j in jobs;
      DecidedAnnounced(rest, decisions);
      var events := EventsOf(Decided, job, 1);
      AnnouncedConcat(events, JobEvents(Decided, rest, 1));
      var said := if job.run then ApprovalGranted(job.call, 1) else ApprovalDenied(job.call, 1);
      assert events == (if job.run then [Ran(job.call)] else []) + [said];
      AnnouncedConcat(if job.run then [Ran(job.call)] else [], [said]);
      assert [said][1..] == [] && [Ran(job.call)][1..] == [];
      assert Announced([said]) == [said] && Announced(if job.run then [Ran(job.call)] else []) == [];
    }
  }

  /** The loop announces no decision. */
  lemma LoopAnnouncesNothing(env: Env, conversationId: string, system: string, s: LoopState)
    ensures Announced(StartLoop(env, conversationId, system, s).s.trace) == Announced(s.trace)
  {
    hide RunLoop;
    var end := StartLoop(env, conversationId, system, s).s.trace;
    StartAdds(env, conversationId, system, s, false);
    var more := end[|s.trace|..];
    assert end == s.trace + more;
    forall i | 0 <= i < |more| ensures !Announces(more[i]) {
      assert more[i] == end[|s.trace| + i];
      assert FromLoop(env.host.registry, false, end[|s.trace| + i]);
    }
    NothingAnnounced(more);
    AnnouncedConcat(s.trace, more);
  }

  lemma AnsweringAnnounces(env: Env, session: Session, jobs: seq<Job>, decisions: seq<Decision>)
    requires AnswerJobs(env, Decided, jobs, ApproveStart(session)).error.None?
    requires forall j :: j in jobs ==> (j.run <==> Decision(j.call.id, true) in decisions)
    ensures Announced(AnswerJobs(env, Decided, jobs, ApproveStart(session)).s.trace)
         == Announced(session.trace) + Announcements(JobCalls(jobs), decisions)
  {
    AnswerJobsIsReplay(env, Decided, jobs, ApproveStart(session));
    AnnouncedConcat(session.trace, JobEvents(Decided, jobs, 1));
    DecidedAnnounced(jobs, decisions);
  }

  /** An approval that returns announces, in order, exactly one decision per pending
      call: granted for the approved ones, denied for all others. */
  lemma DecisionsAreAnnounced(env: Env, session: Session, decisions: seq<Decision>)
    requires Serve(env, session, Approve(decisions)).1.Responded?
    ensures Announced(Serve(env, session, Approve(decisions)).0.trace)
         == Announced(session.trace) + Announcements(Pending(session.history), decisions)
  {
    hide RunLoop, StartLoop;
    var jobs := CheckApproval(env.host.registry, session.history, decisions).jobs;
    AcceptedExactly(env.host.registry, session.history, decisions);
    AnsweringAnnounces(env, session, jobs, decisions);
    LoopAnnouncesNothing(env, session.conversationId, env.defaultSystem,
                         AnswerJobs(env, Decided, jobs, ApproveStart(session)).s);
  }
}
