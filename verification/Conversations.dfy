/**
 Persisted conversations over their own scoped table, and the two API calls of
 the agent on it: what each does to the tables, the meters and the caller.
 */
module Conversations {
  import opened Prelude
  import opened LlmTypes
  import opened TenantScope
  import opened Tickets
  import opened AgentLoop

  /** The JSON column of a row: normally an array of messages. */
  datatype StoredMessages = Messages(items: seq<ChatMessage>) | NotAnArray

  datatype Conversation = Conversation(userId: Option<string>, messages: StoredMessages, status: ConversationStatus)

  function ToMessages(value: StoredMessages): seq<ChatMessage> {
    match value
    case Messages(items) => items
    case NotAnArray => []
  }

  datatype ConversationAnswer = Have(row: Row<Conversation>) | ConversationNotFound | NoTenant | DatabaseFailure

  function AnswerOf(outcome: Outcome<Conversation>): ConversationAnswer {
    match outcome
    case One(row) => Have(row)
    case Absent => ConversationNotFound
    case Unauthorized => NoTenant
    case _ => DatabaseFailure
  }

  function FindIn(ctx: Context, rows: seq<Row<Conversation>>, id: string): ConversationAnswer {
    AnswerOf(ScopedExec(ctx.tenantId, Find(ById(id), false), rows).outcome)
  }

  function CreateIn(ctx: Context, rows: seq<Row<Conversation>>, id: string, messages: seq<ChatMessage>)
    : (ConversationAnswer, seq<Row<Conversation>>)
  {
    var data := Payload(id, ctx.tenantId, Conversation(ctx.userId, Messages(messages), ACTIVE));
    var r := ScopedExec(ctx.tenantId, Create(data), rows);
    (AnswerOf(r.outcome), r.rows)
  }

  function SetMessages(messages: seq<ChatMessage>, status: Option<ConversationStatus>): Conversation -> Conversation {
    (c: Conversation) => c.(messages := Messages(messages), status := status.GetOr(c.status))
  }

  function UpdateIn(ctx: Context, rows: seq<Row<Conversation>>, id: string, messages: seq<ChatMessage>,
                    status: Option<ConversationStatus>)
    : (ConversationAnswer, seq<Row<Conversation>>)
  {
    var r := ScopedExec(ctx.tenantId, Update(ById(id), SetMessages(messages, status)), rows);
    (AnswerOf(r.outcome), r.rows)
  }

  class ConversationService {
    const client: ScopedClient<Conversation>

    constructor (rows: seq<Row<Conversation>>)
      ensures Valid() && fresh(client) && client.rows == rows
    {
      client := new ScopedClient("Conversation", None, rows);
    }

    predicate Valid() {
      client.model == "Conversation" && client.tenantOverride.None?
    }

    method Find(ctx: Context, id: string) returns (answer: ConversationAnswer)
      requires Valid()
      modifies client
      ensures answer == FindIn(ctx, old(client.rows), id) && client.rows == old(client.rows)
    {
      var args := new OperationArgs([], ById(id), Blank(), c => c, rows => |rows|);
      var outcome := client.AllOperations(FIND_FIRST, args, ctx);
      answer := AnswerOf(outcome);
    }

    method Create(ctx: Context, id: string, messages: seq<ChatMessage>) returns (answer: ConversationAnswer)
      requires Valid()
      modifies client
      ensures (answer, client.rows) == CreateIn(ctx, old(client.rows), id, messages)
    {
      var data := Payload(id, ctx.tenantId, Conversation(ctx.userId, Messages(messages), ACTIVE));
      var args := new OperationArgs([data], ById(id), data, c => c, rows => |rows|);
      var outcome := client.AllOperations(CREATE, args, ctx);
      answer := AnswerOf(outcome);
    }

    method UpdateMessages(ctx: Context, id: string, messages: seq<ChatMessage>, status: Option<ConversationStatus>)
      returns (answer: ConversationAnswer)
      requires Valid()
      modifies client
      ensures (answer, client.rows) == UpdateIn(ctx, old(client.rows), id, messages, status)
    {
      var args := new OperationArgs([], ById(id), Blank(), SetMessages(messages, status), rows => |rows|);
      var outcome := client.AllOperations(UPDATE, args, ctx);
      answer := AnswerOf(outcome);
    }
  }

  function Blank(): Payload<Conversation> {
    Payload("", None, Conversation(None, NotAnArray, ACTIVE))
  }

  // ------------------------------------------------------------- the API

  /** Everything outside a request: both tables, the meters, the observed events. */
  datatype World = World(conversations: seq<Row<Conversation>>, store: Store, meter: Meter, trace: seq<Event>)

  datatype ApiCall =
    | ChatCall(text: string, history: Option<seq<ChatMessage>>, system: Option<string>, conversationId: Option<string>)
    | ApproveCall(pausedId: string, decisions: seq<Decision>)

  datatype ApiResult = Done(served: Served) | Failing(answer: ConversationAnswer)

  function SessionOf(w: World, row: Row<Conversation>): Session {
    Session(row.id, ToMessages(row.body.messages), row.body.status, w.store, w.meter, w.trace)
  }

  /** Serves a request on a loaded row; a returned request updates the row. */
  function ServeRow(env: Env, w: World, row: Row<Conversation>, request: AgentLoop.Request): (World, ApiResult) {
    var (next, served) := Serve(env, SessionOf(w, row), request);
    var w' := w.(store := next.store, meter := next.meter, trace := next.trace);
    if served.Responded? then
      var (saved, rows) := UpdateIn(env.host.ctx, w.conversations, row.id, next.history, Some(next.status));
      (w'.(conversations := rows), if saved.Have? then Done(served) else Failing(saved))
    else (w', Done(served))
  }

  /** Creates a conversation, ACTIVE, with the history the caller gave. */
  function Opened(env: Env, uuid: nat -> string, w: World, history: seq<ChatMessage>): (World, ConversationAnswer) {
    var (created, rows) := CreateIn(env.host.ctx, w.conversations, uuid(w.store.drawn), history);
    (w.(conversations := rows, store := w.store.(drawn := w.store.drawn + 1)), created)
  }

  /** A chat that names no conversation starts one. */
  function ServeNew(env: Env, uuid: nat -> string, w: World, history: seq<ChatMessage>, request: AgentLoop.Request)
    : (World, ApiResult)
  {
    var (w', created) := Opened(env, uuid, w, history);
    if created.Have? then ServeRow(env, w', created.row, request) else (w', Failing(created))
  }

  function ServeExisting(env: Env, w: World, id: string, request: AgentLoop.Request): (World, ApiResult) {
    match FindIn(env.host.ctx, w.conversations, id)
    case Have(row) => ServeRow(env, w, row, request)
    case failure => (w, Failing(failure))
  }

  /** A chat continues the conversation it names, or creates one; an approval needs one. */
  function ServeCall(env: Env, uuid: nat -> string, w: World, call: ApiCall): (World, ApiResult) {
    match call
    case ChatCall(text, history, system, conversationId) =>
      if conversationId.Some? && conversationId.value != ""
      then ServeExisting(env, w, conversationId.value, Chat(text, system))
      else ServeNew(env, uuid, w, history.GetOr([]), Chat(text, system))
    case ApproveCall(pausedId, decisions) => ServeExisting(env, w, pausedId, Approve(decisions))
  }
}
