/**
 Many conversations of many tenants at once. What holds of the requests on one
 conversation keeps holding while any other calls come in between.
 */
module ConversationRuns {
  import opened Prelude
  import opened LlmTypes
  import opened TenantScope
  import opened TableLookup
  import opened AgentLoop
  import opened PendingCalls
  import opened Approvals
  import opened GuardedTools
  import opened Conversations

  /** The call is about the conversation `id` of `tenant`, and made by that tenant. */
  predicate Concerns(env: Env, call: ApiCall, tenant: string, id: string) {
    && env.host.ctx.tenantId == Some(tenant)
    && match call
       case ChatCall(_, _, _, conversationId) => conversationId == Some(id)
       case ApproveCall(pausedId, _) => pausedId == id
  }

  function RequestIn(call: ApiCall): AgentLoop.Request {
    match call
    case ChatCall(text, _, system, _) => Chat(text, system)
    case ApproveCall(_, decisions) => Approve(decisions)
  }

  function HistoryOf(row: Row<Conversation>): seq<ChatMessage> {
    ToMessages(row.body.messages)
  }

  /** Serving some row leaves every other one alone. */
  lemma ServeRowElsewhere(env: Env, w: World, row: Row<Conversation>, request: AgentLoop.Request, tenant: string,
                          id: string)
    requires !(env.host.ctx.tenantId == Some(tenant) && row.id == id)
    ensures RowOf(ServeRow(env, w, row, request).0.conversations, tenant, id) == RowOf(w.conversations, tenant, id)
  {
    hide RunLoop;
    var next := Serve(env, SessionOf(w, row), request).0;
    var change := SetMessages(next.history, Some(next.status));
    if env.host.ctx.tenantId.Some? {
      ChangeRow(w.conversations, env.host.ctx.tenantId.value, row.id, change, tenant, id);
    }
  }

  /** Serving a stored row persists exactly what the request made of it; a request
      that returns is always saved. */
  lemma ServeRowHere(env: Env, w: World, row: Row<Conversation>, request: AgentLoop.Request, tenant: string, id: string)
    requires env.host.ctx.tenantId == Some(tenant) && tenant != ""
    requires RowOf(w.conversations, tenant, id) == Some(row)
    ensures var (w', result) := ServeRow(env, w, row, request);
      var (next, served) := Serve(env, SessionOf(w, row), request);
      && result == Done(served)
      && RowOf(w'.conversations, tenant, id).Some?
      && HistoryOf(RowOf(w'.conversations, tenant, id).value) == next.history
      && RowOf(w'.conversations, tenant, id).value.body.status == next.status
      && RowOf(w'.conversations, tenant, id).value == row.(body := RowOf(w'.conversations, tenant, id).value.body)
      && RowOf(w'.conversations, tenant, id).value.body.userId == row.body.userId
      && w'.trace == next.trace
      && (served.Refused? ==> w' == w)
  {
    hide RunLoop;
    var (next, served) := Serve(env, SessionOf(w, row), request);
    SelectIsRowOf(w.conversations, tenant, id);
    ServeAppends(env, SessionOf(w, row), request);
    ChangeRow(w.conversations, tenant, row.id, SetMessages(next.history, Some(next.status)), tenant, id);
  }

  /** A new conversation disturbs no stored one. */
  lemma ServeNewElsewhere(env: Env, uuid: nat -> string, w: World, history: seq<ChatMessage>,
                          request: AgentLoop.Request, tenant: string, id: string)
    requires RowOf(w.conversations, tenant, id).Some?
    ensures RowOf(ServeNew(env, uuid, w, history, request).0.conversations, tenant, id)
        == RowOf(w.conversations, tenant, id)
  {
    SelectIsRowOf(w.conversations, tenant, id);
    var (w', created) := Opened(env, uuid, w, history);
    if created.Have? {
      AppendRow(w.conversations, created.row, tenant, id);
      ServeRowElsewhere(env, w', created.row, request, tenant, id);
    }
  }

  /** One call, on a stored conversation: a call that concerns it serves its request
      on it, any other call leaves it as it is. */
  lemma CallOnConversation(env: Env, uuid: nat -> string, w: World, call: ApiCall, tenant: string, id: string)
    requires tenant != "" && id != "" && RowOf(w.conversations, tenant, id).Some?
    ensures var (w', result) := ServeCall(env, uuid, w, call);
      var row, row' := RowOf(w.conversations, tenant, id).value, RowOf(w'.conversations, tenant, id);
      && row'.Some?
      && (if Concerns(env, call, tenant, id) then
            var (next, served) := Serve(env, SessionOf(w, row), RequestIn(call));
            && result == Done(served)
            && HistoryOf(row'.value) == next.history
            && row'.value.body.status == next.status
            && row'.value == row.(body := row'.value.body) && row'.value.body.userId == row.body.userId
            && w'.trace == next.trace
            && (served.Refused? ==> w' == w)
          else row'.value == row)
  {
    match call
    case ChatCall(text, history, system, conversationId) =>
      if conversationId.Some? && conversationId.value != "" {
        ExistingOnConversation(env, w, conversationId.value, RequestIn(call), tenant, id);
      } else {
        ServeNewElsewhere(env, uuid, w, history.GetOr([]), RequestIn(call), tenant, id);
      }
    case ApproveCall(pausedId, decisions) =>
      ExistingOnConversation(env, w, pausedId, RequestIn(call), tenant, id);
  }

  lemma ExistingOnConversation(env: Env, w: World, named: string, request: AgentLoop.Request, tenant: string,
                               id: string)
    requires tenant != "" && RowOf(w.conversations, tenant, id).Some?
    ensures var (w', result) := ServeExisting(env, w, named, request);
      var row, row' := RowOf(w.conversations, tenant, id).value, RowOf(w'.conversations, tenant, id);
      && row'.Some?
      && (if env.host.ctx.tenantId == Some(tenant) && named == id then
            var (next, served) := Serve(env, SessionOf(w, row), request);
            && result == Done(served)
            && HistoryOf(row'.value) == next.history
            && row'.value.body.status == next.status
            && row'.value == row.(body := row'.value.body) && row'.value.body.userId == row.body.userId
            && w'.trace == next.trace
            && (served.Refused? ==> w' == w)
          else row'.value == row)
  {
    hide RunLoop;
    var ctx := env.host.ctx;
    if ctx.tenantId.Some? && ctx.tenantId.value != "" {
      SelectIsRowOf(w.conversations, ctx.tenantId.value, named);
      var found := FindIn(ctx, w.conversations, named);
      if ctx.tenantId == Some(tenant) && named == id {
        ServeRowHere(env, w, RowOf(w.conversations, tenant, id).value, request, tenant, id);
      } else if found.Have? {
        ServeRowElsewhere(env, w, found.row, request, tenant, id);
      }
    }
  }

  // -------------------------------------------------------------- whole runs

  /** A call, with the tenant, model, clock and tools it is served by. */
  datatype Entry = Entry(env: Env, call: ApiCall)

  function WorldRun(uuid: nat -> string, w: World, entries: seq<Entry>): World
    decreases |entries|
  {
    if entries == [] then w
    else WorldRun(uuid, ServeCall(entries[0].env, uuid, w, entries[0].call).0, entries[1..])
  }

  /** The approvals outstanding on one conversation: only calls that concern it count. */
  function OutstandingOn(uuid: nat -> string, w: World, entries: seq<Entry>, tenant: string, id: string,
                         outstanding: seq<ToolCall>): seq<ToolCall>
    decreases |entries|
  {
    if entries == [] then outstanding
    else
      var (w', result) := ServeCall(entries[0].env, uuid, w, entries[0].call);
      OutstandingOn(uuid, w', entries[1..], tenant, id,
        if Concerns(entries[0].env, entries[0].call, tenant, id) && result.Done?
        then OutstandingAfter(outstanding, RequestIn(entries[0].call), result.served) else outstanding)
  }

  ghost predicate FreshModels(entries: seq<Entry>) {
    forall i :: 0 <= i < |entries| ==> FreshModel(entries[i].env)
  }

  /** Over every interleaving of any calls by any tenants on any conversations, the
      history of each stored conversation only grows, and what is pending in it is
      exactly what its own requests left outstanding, in order. */
  lemma {:induction false} EveryConversationKeepsItsPending(uuid: nat -> string, w: World, entries: seq<Entry>,
                                                            tenant: string, id: string)
    requires tenant != "" && id != "" && FreshModels(entries)
    requires RowOf(w.conversations, tenant, id).Some?
    ensures var history := HistoryOf(RowOf(w.conversations, tenant, id).value);
      var end := RowOf(WorldRun(uuid, w, entries).conversations, tenant, id);
      && end.Some?
      && history <= HistoryOf(end.value)
      && Pending(HistoryOf(end.value)) == OutstandingOn(uuid, w, entries, tenant, id, Pending(history))
    decreases |entries|
  {
    if entries != [] {
      var env, call := entries[0].env, entries[0].call;
      var row := RowOf(w.conversations, tenant, id).value;
      CallOnConversation(env, uuid, w, call, tenant, id);
      ServeAppends(env, SessionOf(w, row), RequestIn(call));
      ServePending(env, SessionOf(w, row), RequestIn(call));
      assert forall i :: 0 <= i < |entries[1..]| ==> entries[1..][i] == entries[i + 1];
      EveryConversationKeepsItsPending(uuid, ServeCall(env, uuid, w, call).0, entries[1..], tenant, id);
    }
  }

  // --------------------------------------------- the other promises, anywhere

  /** For any ids: stored histories only grow, whatever calls come in between. */
  lemma {:induction false} HistoriesGrow(uuid: nat -> string, w: World, entries: seq<Entry>, tenant: string, id: string)
    requires tenant != "" && id != "" && RowOf(w.conversations, tenant, id).Some?
    ensures var end := RowOf(WorldRun(uuid, w, entries).conversations, tenant, id);
      end.Some? && HistoryOf(RowOf(w.conversations, tenant, id).value) <= HistoryOf(end.value)
    decreases |entries|
  {
    if entries != [] {
      var env, call := entries[0].env, entries[0].call;
      CallOnConversation(env, uuid, w, call, tenant, id);
      ServeAppends(env, SessionOf(w, RowOf(w.conversations, tenant, id).value), RequestIn(call));
      HistoriesGrow(uuid, ServeCall(env, uuid, w, call).0, entries[1..], tenant, id);
    }
  }

  /** How often a call dispatched a guarded tool for `callId`. */
  function RanIn(entry: Entry, w: World, w': World, callId: string): int {
    Runs(entry.env.host.registry, w'.trace, callId) - Runs(entry.env.host.registry, w.trace, callId)
  }

  /** Over the calls on one conversation: the runs of a guarded call, and the calls
      that ran it and returned or threw. */
  datatype Tally = Tally(runs: int, kept: nat, lost: nat)

  function TallyOn(uuid: nat -> string, w: World, entries: seq<Entry>, tenant: string, id: string, callId: string)
    : Tally
    decreases |entries|
  {
    if entries == [] then Tally(0, 0, 0)
    else
      var (w', result) := ServeCall(entries[0].env, uuid, w, entries[0].call);
      var rest := TallyOn(uuid, w', entries[1..], tenant, id, callId);
      if !Concerns(entries[0].env, entries[0].call, tenant, id) then rest
      else
        var ran := RanIn(entries[0], w, w', callId);
        Tally(ran + rest.runs,
              rest.kept + (if ran > 0 && result.Done? && result.served.Responded? then 1 else 0),
              rest.lost + (if ran > 0 && result.Done? && result.served.Crashed? then 1 else 0))
  }

  /** At most once, anywhere: however calls on other conversations come in between,
      the calls on one conversation run a guarded call exactly once for each
      approval that ran it and returned, of which there is at most one, and once
      for each that ran it and threw. */
  lemma {:induction false} GuardedCallRunsOnceOn(uuid: nat -> string, w: World, entries: seq<Entry>, tenant: string,
                                                 id: string, callId: string)
    requires tenant != "" && id != "" && FreshModels(entries)
    requires RowOf(w.conversations, tenant, id).Some?
    requires DistinctIds(Calls(HistoryOf(RowOf(w.conversations, tenant, id).value)))
    ensures var tally := TallyOn(uuid, w, entries, tenant, id, callId);
      && tally.runs == tally.kept + tally.lost
      && tally.kept <= if callId in Answered(HistoryOf(RowOf(w.conversations, tenant, id).value)) then 0 else 1
    decreases |entries|
  {
    if entries != [] {
      var env, call := entries[0].env, entries[0].call;
      var session := SessionOf(w, RowOf(w.conversations, tenant, id).value);
      var (next, served) := Serve(env, session, RequestIn(call));
      CallOnConversation(env, uuid, w, call, tenant, id);
      if Concerns(env, call, tenant, id) {
        OneGuardedStep(env, session, RequestIn(call), callId);
      }
      assert forall i :: 0 <= i < |entries[1..]| ==> entries[1..][i] == entries[i + 1];
      GuardedCallRunsOnceOn(uuid, ServeCall(env, uuid, w, call).0, entries[1..], tenant, id, callId);
    }
  }

  /** What one request on a session does to a guarded call. */
  lemma OneGuardedStep(env: Env, session: Session, request: AgentLoop.Request, callId: string)
    requires FreshModel(env) && DistinctIds(Calls(session.history))
    ensures var (next, served) := Serve(env, session, request);
      var ran := Runs(env.host.registry, next.trace, callId) - Runs(env.host.registry, session.trace, callId);
      && 0 <= ran <= 1 && (served.Refused? ==> ran == 0)
      && DistinctIds(Calls(next.history)) && Answered(session.history) <= Answered(next.history)
      && (callId in Answered(session.history) ==> ran == 0)
      && (ran == 1 && served.Responded? ==> callId in Answered(next.history))
  {
    var (next, served) := Serve(env, session, request);
    UnansweredDistinct(Calls(session.history), Answered(session.history));
    ServeRuns(env, session, request, callId);
    ServeDistinct(env, session, request);
    ServeAppends(env, session, request);
    AnsweredGrows(session.history, next.history);
    if served.Responded? && request.Approve? {
      ApprovalAnswers(env, session, request.decisions);
    }
  }

  /** Answers are final, anywhere and for any ids: once a call of a conversation is
      answered, no call on that conversation runs a guarded tool for it. */
  lemma {:induction false} AnsweredNeverRunsOn(uuid: nat -> string, w: World, entries: seq<Entry>, tenant: string,
                                               id: string, callId: string)
    requires tenant != "" && id != "" && RowOf(w.conversations, tenant, id).Some?
    requires callId in Answered(HistoryOf(RowOf(w.conversations, tenant, id).value))
    ensures TallyOn(uuid, w, entries, tenant, id, callId) == Tally(0, 0, 0)
    decreases |entries|
  {
    if entries != [] {
      var env, call := entries[0].env, entries[0].call;
      var session := SessionOf(w, RowOf(w.conversations, tenant, id).value);
      CallOnConversation(env, uuid, w, call, tenant, id);
      AnsweredNeverRuns(env, session, [RequestIn(call)], callId);
      assert [RequestIn(call)][1..] == [];
      assert Run(env, session, [RequestIn(call)]) == Run(env, Serve(env, session, RequestIn(call)).0, []);
      ServeAppends(env, session, RequestIn(call));
      AnsweredGrows(session.history, Serve(env, session, RequestIn(call)).0.history);
      AnsweredNeverRunsOn(uuid, ServeCall(env, uuid, w, call).0, entries[1..], tenant, id, callId);
    }
  }

  /** Replays are refused, anywhere and for any ids: after an approval with
      decisions has returned, its tenant's same decisions on that conversation are
      refused, without any effect, after any calls by anyone. */
  lemma ReplayIsRefusedOn(uuid: nat -> string, w: World, env: Env, again: Env, later: seq<Entry>,
                          tenant: string, id: string, decisions: seq<Decision>)
    requires tenant != "" && id != "" && decisions != [] && RowOf(w.conversations, tenant, id).Some?
    requires env.host.ctx.tenantId == again.host.ctx.tenantId == Some(tenant)
    requires var result := ServeCall(env, uuid, w, ApproveCall(id, decisions)).1;
      result.Done? && result.served.Responded?
    ensures var end := WorldRun(uuid, ServeCall(env, uuid, w, ApproveCall(id, decisions)).0, later);
      var (after, result) := ServeCall(again, uuid, end, ApproveCall(id, decisions));
      after == end && result.Done? && result.served.Refused?
  {
    var session := SessionOf(w, RowOf(w.conversations, tenant, id).value);
    var w' := ServeCall(env, uuid, w, ApproveCall(id, decisions)).0;
    var end := WorldRun(uuid, w', later);
    CallOnConversation(env, uuid, w, ApproveCall(id, decisions), tenant, id);
    HistoriesGrow(uuid, w', later, tenant, id);
    CallOnConversation(again, uuid, end, ApproveCall(id, decisions), tenant, id);
    var now := SessionOf(end, RowOf(end.conversations, tenant, id).value);
    AnsweredRefused(env, again, session, now, decisions);
  }

  /** The last response of the calls on one conversation. */
  function LastOn(uuid: nat -> string, w: World, entries: seq<Entry>, tenant: string, id: string,
                  last: Option<ChatResponse>): Option<ChatResponse>
    decreases |entries|
  {
    if entries == [] then last
    else
      var (w', result) := ServeCall(entries[0].env, uuid, w, entries[0].call);
      LastOn(uuid, w', entries[1..], tenant, id,
        if Concerns(entries[0].env, entries[0].call, tenant, id) && result.Done? && result.served.Responded?
        then Some(result.served.response) else last)
  }

  /** The stored status, anywhere: a function of the last response on that very conversation. */
  lemma {:induction false} StatusOn(uuid: nat -> string, w: World, entries: seq<Entry>, tenant: string, id: string,
                                    last: Option<ChatResponse>)
    requires tenant != "" && id != "" && RowOf(w.conversations, tenant, id).Some?
    requires RowOf(w.conversations, tenant, id).value.body.status == StatusAfter(last)
    ensures var end := RowOf(WorldRun(uuid, w, entries).conversations, tenant, id);
      end.Some? && end.value.body.status == StatusAfter(LastOn(uuid, w, entries, tenant, id, last))
    decreases |entries|
  {
    if entries != [] {
      var env, call := entries[0].env, entries[0].call;
      var session := SessionOf(w, RowOf(w.conversations, tenant, id).value);
      var (w', result) := ServeCall(env, uuid, w, call);
      CallOnConversation(env, uuid, w, call, tenant, id);
      ServeAppends(env, session, RequestIn(call));
      StatusOn(uuid, w', entries[1..], tenant, id,
        if Concerns(env, call, tenant, id) && result.Done? && result.served.Responded?
        then Some(result.served.response) else last);
    }
  }
}
