/**
 Starting a conversation: what is stored, what the model is shown first, and what
 a call without a tenant does.
 */
module NewConversations {
  import opened Prelude
  import opened LlmTypes
  import opened TenantScope
  import opened AgentLoop
  import opened Approvals
  import opened TableLookup
  import opened Conversations
  import opened ConversationRuns
  import opened Story

  /** Creating a conversation stores exactly the history it is given, ACTIVE, for the
      acting tenant and user, behind all other rows. */
  lemma CreatesExactly(ctx: Context, tenant: string, rows: seq<Row<Conversation>>, id: string,
                       messages: seq<ChatMessage>)
    requires tenant != "" && ctx.tenantId == Some(tenant) && !HasId(rows, id)
    ensures var row := Row(id, tenant, Conversation(ctx.userId, Messages(messages), ACTIVE));
      CreateIn(ctx, rows, id, messages) == (Have(row), rows + [row])
  {
  }

  /** Opening one draws one id of the shared generator, stores the row under it and
      touches nothing else; an id that is taken fails, and is used up. */
  lemma OpensExactly(env: Env, uuid: nat -> string, w: World, tenant: string, history: seq<ChatMessage>)
    requires tenant != "" && env.host.ctx.tenantId == Some(tenant)
    ensures var id := uuid(w.store.drawn);
      var row := Row(id, tenant, Conversation(env.host.ctx.userId, Messages(history), ACTIVE));
      var (w', created) := Opened(env, uuid, w, history);
      && w'.store == w.store.(drawn := w.store.drawn + 1) && w'.meter == w.meter && w'.trace == w.trace
      && if HasId(w.conversations, id) then created == DatabaseFailure && w'.conversations == w.conversations
         else created == Have(row) && w'.conversations == w.conversations + [row]
  {
  }

  /** Finding a conversation gives the tenant's own row of that id, updating it
      replaces its history and, if one is given, its status, and keeps its user. */
  lemma FindsAndUpdatesExactly(ctx: Context, tenant: string, rows: seq<Row<Conversation>>, id: string,
                               messages: seq<ChatMessage>, status: Option<ConversationStatus>)
    requires tenant != "" && ctx.tenantId == Some(tenant)
    ensures var row := RowOf(rows, tenant, id);
      var (saved, rows') := UpdateIn(ctx, rows, id, messages, status);
      && FindIn(ctx, rows, id) == (if row.Some? then Have(row.value) else ConversationNotFound)
      && (row.None? ==> saved == DatabaseFailure && rows' == rows)
      && (row.Some? ==>
            var updated := Row(id, tenant, Conversation(row.value.body.userId, Messages(messages),
                                                        if status.Some? then status.value else row.value.body.status));
            saved == Have(updated) && RowOf(rows', tenant, id) == Some(updated))
  {
    SelectIsRowOf(rows, tenant, id);
    ChangeRow(rows, tenant, id, SetMessages(messages, status), tenant, id);
  }

  /** Without a tenant no call reaches the tables, the model or a tool. */
  lemma CallsNeedTenant(env: Env, uuid: nat -> string, w: World, call: ApiCall)
    requires env.host.ctx.tenantId.None? || env.host.ctx.tenantId.value == ""
    ensures var (w', result) := ServeCall(env, uuid, w, call);
      && result == Failing(NoTenant)
      && w' == w.(store := w.store.(drawn := w'.store.drawn))
  {
  }

  /** The first thing a chat asks of the model: the system text of the request or else
      the default one, the stored history followed by the user's text, and all tools. */
  lemma FirstQuestion(env: Env, session: Session, text: string, system: Option<string>)
    ensures var before, after := Talk(session.trace), Talk(Serve(env, session, Chat(text, system)).0.trace);
      && before <= after
      && (|after| > |before| ==>
            && after[|before|].Asked?
            && after[|before|].request == LlmRequest(if system.Some? then system.value else env.defaultSystem,
                                                     session.history + [ChatMessage(User, text, None, None)],
                                                         env.tools))
  {
    hide StartLoop, Exchanges;
    ServeTalks(env, session, Chat(text, system));
    ChatTells(env, session, text, system);
  }

  /** A chat that names no conversation: its new row starts with the history the
      caller sent and the user's text, and that is what the model is first asked
      with; if the request throws, the row keeps just the history sent. */
  lemma NewChatKeepsHistory(env: Env, uuid: nat -> string, w: World, tenant: string, text: string,
                            history: Option<seq<ChatMessage>>, system: Option<string>, named: Option<string>)
    requires tenant != "" && env.host.ctx.tenantId == Some(tenant) && (named == None || named == Some(""))
    requires !HasId(w.conversations, uuid(w.store.drawn))
    ensures var (w', result) := ServeCall(env, uuid, w, ChatCall(text, history, system, named));
      var sent := if history.Some? then history.value else [];
      var shown := sent + [ChatMessage(User, text, None, None)];
      var row := RowOf(w'.conversations, tenant, uuid(w.store.drawn));
      var before, after := Talk(w.trace), Talk(w'.trace);
      && result.Done? && !result.served.Refused? && row.Some? && row.value.body.userId == env.host.ctx.userId
      && (result.served.Responded? ==>
            && shown <= HistoryOf(row.value) && row.value.body.status != ACTIVE
            && result.served.response.conversationId == uuid(w.store.drawn))
      && (result.served.Crashed? ==> HistoryOf(row.value) == sent && row.value.body.status == ACTIVE)
      && before <= after
      && (|after| > |before| ==>
            && after[|before|].Asked?
            && after[|before|].request
                 == LlmRequest(if system.Some? then system.value else env.defaultSystem, shown, env.tools))
  {
    hide Serve;
    var id, sent := uuid(w.store.drawn), history.GetOr([]);
    var row := Row(id, tenant, Conversation(env.host.ctx.userId, Messages(sent), ACTIVE));
    CreatesExactly(env.host.ctx, tenant, w.conversations, id, sent);
    var begun := Opened(env, uuid, w, sent).0;
    NewRowFound(w.conversations, row);
    ServeRowHere(env, begun, row, Chat(text, system), tenant, id);
    FirstQuestion(env, SessionOf(begun, row), text, system);
    NewSession(env, SessionOf(begun, row), text, system);
  }

  /** A chat that names a stored conversation: whatever history the caller sends along,
      the model is first asked with the stored one and the user's text; a stored value
      that is not an array counts as no history. A request that returns leaves an array
      that starts with those messages, any other leaves the row as it was. */
  lemma ContinuedChatKeepsHistory(env: Env, uuid: nat -> string, w: World, tenant: string, id: string, text: string,
                                  history: Option<seq<ChatMessage>>, system: Option<string>)
    requires tenant != "" && id != "" && env.host.ctx.tenantId == Some(tenant)
    requires RowOf(w.conversations, tenant, id).Some?
    ensures var (w', result) := ServeCall(env, uuid, w, ChatCall(text, history, system, Some(id)));
      var row, row' := RowOf(w.conversations, tenant, id).value, RowOf(w'.conversations, tenant, id);
      var stored := if row.body.messages.Messages? then row.body.messages.items else [];
      var shown := stored + [ChatMessage(User, text, None, None)];
      var before, after := Talk(w.trace), Talk(w'.trace);
      && result.Done? && row'.Some?
      && (result.served.Responded? ==>
            && row'.value.body.messages.Messages? && shown <= row'.value.body.messages.items
            && row'.value.body.status != ACTIVE)
      && (!result.served.Responded? ==> row'.value == row)
      && before <= after
      && (|after| > |before| ==>
            && after[|before|].Asked?
            && after[|before|].request
                 == LlmRequest(if system.Some? then system.value else env.defaultSystem, shown, env.tools))
  {
    hide Serve;
    var row := RowOf(w.conversations, tenant, id).value;
    SelectIsRowOf(w.conversations, tenant, id);
    ServeRowHere(env, w, row, Chat(text, system), tenant, id);
    var next := Serve(env, SessionOf(w, row), Chat(text, system)).0;
    FindsAndUpdatesExactly(env.host.ctx, tenant, w.conversations, id, next.history, Some(next.status));
    FirstQuestion(env, SessionOf(w, row), text, system);
    NewSession(env, SessionOf(w, row), text, system);
  }

  lemma NewRowFound(rows: seq<Row<Conversation>>, row: Row<Conversation>)
    requires !HasId(rows, row.id)
    ensures RowOf(rows + [row], row.tenantId, row.id) == Some(row)
  {
    SelectIsRowOf(rows, row.tenantId, row.id);
    AppendRow(rows, row, row.tenantId, row.id);
  }

  lemma NewSession(env: Env, session: Session, text: string, system: Option<string>)
    ensures var (next, served) := Serve(env, session, Chat(text, system));
      && !served.Refused?
      && (served.Responded? ==>
            && session.history + [ChatMessage(User, text, None, None)] <= next.history
            && next.status != ACTIVE && served.response.conversationId == session.conversationId)
  {
    hide StartLoop, Exchanges;
    ServeAppends(env, session, Chat(text, system));
    StartAppends(env, session.conversationId, system.GetOr(env.defaultSystem), ChatStart(session, text));
    if Serve(env, session, Chat(text, system)).1.Responded? {
      ResponseCountsReplies(env, session, Chat(text, system));
    }
  }
}
