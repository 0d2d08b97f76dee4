/**
 Noninterference between tenants, end to end: an agent request of one tenant
 leaves every other tenant's tickets and conversations as they were, and its
 response depends on nothing but the tenant's own rows.
 */
module Isolation {
  import opened Prelude
  import opened LlmTypes
  import opened TenantScope
  import opened TenantSimulation
  import opened Tickets
  import opened Tools
  import opened AgentLoop
  import opened AgentShape
  import opened Conversations

  /** No id still to be generated belongs to a row of another tenant. */
  ghost predicate Unused<T(!new)>(uuid: nat -> string, tenant: string, rows: seq<Row<T>>, drawn: nat) {
    forall r, n: nat :: r in rows && r.tenantId != tenant && n >= drawn ==> r.id != uuid(n)
  }

  /** Every other tenant's private table is the same. */
  ghost predicate OthersKept<T(!new)>(tenant: string, before: seq<Row<T>>, after: seq<Row<T>>) {
    forall t :: t != tenant ==> Project(t, after) == Project(t, before)
  }

  /** A store after some work of `tenant`: other tenants' tickets as before, ids only handed out. */
  ghost predicate StoreKept(tenant: string, before: Store, after: Store) {
    OthersKept(tenant, before.tickets, after.tickets) && before.drawn <= after.drawn
  }

  /** Two stores that `tenant` cannot tell apart. */
  ghost predicate Agree(uuid: nat -> string, tenant: string, a: Store, b: Store) {
    && Project(tenant, a.tickets) == Project(tenant, b.tickets)
    && a.drawn == b.drawn
    && Unused(uuid, tenant, a.tickets, a.drawn)
    && Unused(uuid, tenant, b.tickets, b.drawn)
  }

  lemma UnusedKept<T(!new)>(uuid: nat -> string, tenant: string, before: seq<Row<T>>, after: seq<Row<T>>, drawn: nat,
                            later: nat)
    requires Unused(uuid, tenant, before, drawn) && OthersKept(tenant, before, after) && later >= drawn
    ensures Unused(uuid, tenant, after, later)
  {
    forall r, n: nat | r in after && r.tenantId != tenant && n >= later ensures r.id != uuid(n) {
      ProjectMembers(r.tenantId, after);
      ProjectMembers(r.tenantId, before);
      assert r in Project(r.tenantId, after);
      assert r in before;
    }
  }

  /** Whatever the tenant does through the scoped client on two tables it cannot
      tell apart, it gets the same answer, cannot tell the results apart either,
      and leaves other tenants alone. */
  lemma ScopedAgree<T(!new)>(tenant: string, op: Op<T>, a: seq<Row<T>>, b: seq<Row<T>>)
    requires tenant != "" && Project(tenant, a) == Project(tenant, b)
    requires NoForeignClash(op, tenant, a) && NoForeignClash(op, tenant, b)
    ensures var ra, rb := ScopedExec(Some(tenant), op, a), ScopedExec(Some(tenant), op, b);
      && ra.outcome == rb.outcome
      && Project(tenant, ra.rows) == Project(tenant, rb.rows)
      && OthersKept(tenant, a, ra.rows) && OthersKept(tenant, b, rb.rows)
  {
    var ra, rb := ScopedExec(Some(tenant), op, a), ScopedExec(Some(tenant), op, b);
    forall t | t != tenant
      ensures Project(t, ra.rows) == Project(t, a) && Project(t, rb.rows) == Project(t, b)
    {
      ScopedIsPrivate(op, tenant, t, a);
      ScopedIsPrivate(op, tenant, t, b);
    }
    ScopedIsPrivate(op, tenant, tenant, a);
    ScopedIsPrivate(op, tenant, tenant, b);
  }

  // ----------------------------------------------------------------- tools

  /** A tool run by `tenant`: same outcome on stores it cannot tell apart, again
      indistinguishable afterwards, and other tenants untouched. */
  ghost predicate IsolatedRun(uuid: nat -> string, tenant: string, tool: Tool, ctx: Context, a: Store, b: Store,
                              input: Json)
  {
    ctx.tenantId == Some(tenant) && Agree(uuid, tenant, a, b) ==>
      && tool.run(ctx, a, input).0 == tool.run(ctx, b, input).0
      && Agree(uuid, tenant, tool.run(ctx, a, input).1, tool.run(ctx, b, input).1)
      && StoreKept(tenant, a, tool.run(ctx, a, input).1)
  }

  ghost predicate IsolatedTool(uuid: nat -> string, tenant: string, tool: Tool) {
    forall ctx, a, b, input :: IsolatedRun(uuid, tenant, tool, ctx, a, b, input)
  }

  ghost predicate IsolatedRegistry(uuid: nat -> string, tenant: string, registry: Registry) {
    forall name :: name in registry ==> IsolatedTool(uuid, tenant, registry[name])
  }

  lemma CreatedAgree(uuid: nat -> string, ctx: Context, tenant: string, a: Store, b: Store, title: string)
    requires tenant != "" && ctx.tenantId == Some(tenant) && Agree(uuid, tenant, a, b)
    ensures Created(uuid, ctx, a, title).0 == Created(uuid, ctx, b, title).0
    ensures Agree(uuid, tenant, Created(uuid, ctx, a, title).1, Created(uuid, ctx, b, title).1)
    ensures StoreKept(tenant, a, Created(uuid, ctx, a, title).1)
  {
    var op := Create(Payload(uuid(a.drawn), ctx.tenantId, Ticket(title, OPEN)));
    assert NewIds(op) == [uuid(a.drawn)];
    ScopedAgree(tenant, op, a.tickets, b.tickets);
    UnusedKept(uuid, tenant, a.tickets, Created(uuid, ctx, a, title).1.tickets, a.drawn, a.drawn + 1);
    UnusedKept(uuid, tenant, b.tickets, Created(uuid, ctx, b, title).1.tickets, b.drawn, b.drawn + 1);
  }

  lemma FoundAgree(uuid: nat -> string, ctx: Context, tenant: string, a: Store, b: Store, id: string,
                   status: Option<TicketStatus>)
    requires tenant != "" && ctx.tenantId == Some(tenant) && Agree(uuid, tenant, a, b)
    ensures FoundOne(ctx, a, id) == FoundOne(ctx, b, id)
    ensures FoundAll(ctx, a, status) == FoundAll(ctx, b, status)
  {
    ScopedAgree(tenant, Find(ById<Ticket>(id), false), a.tickets, b.tickets);
    ScopedAgree(tenant, FindMany(ByStatus(status)), a.tickets, b.tickets);
  }

  lemma UpdatedAgree(uuid: nat -> string, ctx: Context, tenant: string, a: Store, b: Store, id: string,
                     title: Option<string>, status: Option<TicketStatus>)
    requires tenant != "" && ctx.tenantId == Some(tenant) && Agree(uuid, tenant, a, b)
    ensures Updated(ctx, a, id, title, status).0 == Updated(ctx, b, id, title, status).0
    ensures Agree(uuid, tenant, Updated(ctx, a, id, title, status).1, Updated(ctx, b, id, title, status).1)
    ensures StoreKept(tenant, a, Updated(ctx, a, id, title, status).1)
  {
    FoundAgree(uuid, ctx, tenant, a, b, id, None);
    ScopedAgree(tenant, Update(ById(id), Edit(title, status)), a.tickets, b.tickets);
    UnusedKept(uuid, tenant, a.tickets, Updated(ctx, a, id, title, status).1.tickets, a.drawn, a.drawn);
    UnusedKept(uuid, tenant, b.tickets, Updated(ctx, b, id, title, status).1.tickets, b.drawn, b.drawn);
  }

  lemma RemovedAgree(uuid: nat -> string, ctx: Context, tenant: string, a: Store, b: Store, id: string)
    requires tenant != "" && ctx.tenantId == Some(tenant) && Agree(uuid, tenant, a, b)
    ensures Removed(ctx, a, id).0 == Removed(ctx, b, id).0
    ensures Agree(uuid, tenant, Removed(ctx, a, id).1, Removed(ctx, b, id).1)
    ensures StoreKept(tenant, a, Removed(ctx, a, id).1)
  {
    FoundAgree(uuid, ctx, tenant, a, b, id, None);
    ScopedAgree(tenant, Delete(ById<Ticket>(id)), a.tickets, b.tickets);
    UnusedKept(uuid, tenant, a.tickets, Removed(ctx, a, id).1.tickets, a.drawn, a.drawn);
    UnusedKept(uuid, tenant, b.tickets, Removed(ctx, b, id).1.tickets, b.drawn, b.drawn);
  }

  lemma CreateToolIsolated(uuid: nat -> string, isUuid: string -> bool, tenant: string)
    requires tenant != ""
    ensures IsolatedTool(uuid, tenant, CreateTool(uuid, isUuid))
  {
    forall ctx, a, b, input ensures IsolatedRun(uuid, tenant, CreateTool(uuid, isUuid), ctx, a, b, input) {
      if ctx.tenantId == Some(tenant) && Agree(uuid, tenant, a, b) {
        CreatedAgree(uuid, ctx, tenant, a, b, Text(input, "title").GetOr(""));
      }
    }
  }

  lemma ListToolIsolated(uuid: nat -> string, isUuid: string -> bool, tenant: string)
    requires tenant != ""
    ensures IsolatedTool(uuid, tenant, ListTool(isUuid))
  {
    forall ctx, a, b, input ensures IsolatedRun(uuid, tenant, ListTool(isUuid), ctx, a, b, input) {
      if ctx.tenantId == Some(tenant) && Agree(uuid, tenant, a, b) {
        FoundAgree(uuid, ctx, tenant, a, b, "", StatusField(input));
      }
    }
  }

  lemma GetTicketToolIsolated(uuid: nat -> string, isUuid: string -> bool, tenant: string)
    requires tenant != ""
    ensures IsolatedTool(uuid, tenant, GetTicketTool(isUuid))
  {
    forall ctx, a, b, input ensures IsolatedRun(uuid, tenant, GetTicketTool(isUuid), ctx, a, b, input) {
      if ctx.tenantId == Some(tenant) && Agree(uuid, tenant, a, b) {
        FoundAgree(uuid, ctx, tenant, a, b, Text(input, "ticketId").GetOr(""), None);
      }
    }
  }

  lemma UpdateToolIsolated(uuid: nat -> string, isUuid: string -> bool, tenant: string)
    requires tenant != ""
    ensures IsolatedTool(uuid, tenant, UpdateTool(isUuid))
  {
    forall ctx, a, b, input ensures IsolatedRun(uuid, tenant, UpdateTool(isUuid), ctx, a, b, input) {
      if ctx.tenantId == Some(tenant) && Agree(uuid, tenant, a, b) {
        UpdatedAgree(uuid, ctx, tenant, a, b, Text(input, "ticketId").GetOr(""), Text(input, "title"),
                     StatusField(input));
      }
    }
  }

  lemma DeleteToolIsolated(uuid: nat -> string, isUuid: string -> bool, tenant: string)
    requires tenant != ""
    ensures IsolatedTool(uuid, tenant, DeleteTool(isUuid))
  {
    forall ctx, a, b, input ensures IsolatedRun(uuid, tenant, DeleteTool(isUuid), ctx, a, b, input) {
      if ctx.tenantId == Some(tenant) && Agree(uuid, tenant, a, b) {
        RemovedAgree(uuid, ctx, tenant, a, b, Text(input, "ticketId").GetOr(""));
      }
    }
  }

  /** The five ticket tools are isolated, and the unflagged ones only read. */
  lemma TicketToolsIsolated(uuid: nat -> string, isUuid: string -> bool, tenant: string)
    requires tenant != ""
    ensures IsolatedRegistry(uuid, tenant, TicketRegistry(uuid, isUuid))
    ensures UnflaggedToolsOnlyRead(TicketRegistry(uuid, isUuid))
  {
    CreateToolIsolated(uuid, isUuid, tenant);
    ListToolIsolated(uuid, isUuid, tenant);
    GetTicketToolIsolated(uuid, isUuid, tenant);
    UpdateToolIsolated(uuid, isUuid, tenant);
    DeleteToolIsolated(uuid, isUuid, tenant);
  }

  /** Arguments a ticket tool accepts name a ticket, and the tool gets that very id. */
  lemma AcceptedNameTicket(isUuid: string -> bool, arguments: Json, allowed: set<string>)
    requires ParseFields({"ticketId"}, allowed, FieldCheck(isUuid))(arguments).Valid?
    ensures arguments.JObject? && HasText(arguments.fields, "ticketId")
    ensures var input := ParseFields({"ticketId"}, allowed, FieldCheck(isUuid))(arguments).input;
      Text(input, "ticketId") == Some(arguments.fields["ticketId"].s)
  {
    assert "ticketId" in {"ticketId"};
    assert HasText(arguments.fields, "ticketId");
  }

  predicate IsNotFound(result: ToolResult) {
    result.Failed? && result.error.code == NOT_FOUND
  }

  /** The outcome of a ticket tool on `id` is NOT_FOUND exactly when the tenant has no
      such ticket, whatever else the input asks for. */
  lemma ToolNotFoundExactly(host: Host, store: Store, tool: Tool, input: Json, id: string, isUuid: string -> bool)
    requires host.ctx.tenantId.Some? && host.ctx.tenantId.value != ""
    requires tool in [GetTicketTool(isUuid), UpdateTool(isUuid), DeleteTool(isUuid)]
    requires Text(input, "ticketId") == Some(id)
    ensures var (outcome, after) := tool.run(host.ctx, store, input);
      && outcome.Returned?
      && (IsNotFound(outcome.result) <==> !HasId(Project(host.ctx.tenantId.value, store.tickets), id))
      && (IsNotFound(outcome.result) ==> after == store)
  {
    FoundExactly(host.ctx, store, id);
    if FoundOne(host.ctx, store, id).Ok? {
      FoundThenChanged(host.ctx, store, id);
    }
  }

  /** Once found, the row is there to update or delete. */
  lemma FoundThenChanged(ctx: Context, store: Store, id: string)
    requires FoundOne(ctx, store, id).Ok?
    ensures forall title, status :: Updated(ctx, store, id, title, status).0.Ok?
    ensures Removed(ctx, store, id).0.Ok?
  {
    var tenant := ctx.tenantId.value;
    var w := ById<Ticket>(id).(tenantId := Some(tenant));
    assert Select(store.tickets, w) != [];
  }

  /** Reading, updating or deleting a ticket the tenant does not own, whether it is
      absent or another tenant's, is NOT_FOUND and changes nothing; and only that is.
      This holds for all arguments the tool accepts, whatever they ask to change. */
  lemma ForeignTicketIsNotFound(uuid: nat -> string, isUuid: string -> bool, host: Host, store: Store, name: string,
                                arguments: Json)
    requires host.registry == TicketRegistry(uuid, isUuid)
    requires host.ctx.tenantId.Some? && host.ctx.tenantId.value != ""
    requires name in {"get_ticket", "update_ticket", "delete_ticket"}
    requires host.registry[name].parse(arguments).Valid?
    ensures arguments.JObject? && HasText(arguments.fields, "ticketId")
    ensures var e := Execute(host, store, name, arguments);
      var id := arguments.fields["ticketId"].s;
      && e.settled.Fulfilled?
      && (IsNotFound(e.settled.result) <==> !HasId(Project(host.ctx.tenantId.value, store.tickets), id))
      && (IsNotFound(e.settled.result) ==> e.store == store)
  {
    if name == "get_ticket" {
      AcceptedNameTicket(isUuid, arguments, {});
      RegisteredNotFoundExactly(host, store, name, GetTicketTool(isUuid), arguments, isUuid);
    } else if name == "update_ticket" {
      AcceptedNameTicket(isUuid, arguments, {"title", "status"});
      RegisteredNotFoundExactly(host, store, name, UpdateTool(isUuid), arguments, isUuid);
    } else {
      AcceptedNameTicket(isUuid, arguments, {});
      RegisteredNotFoundExactly(host, store, name, DeleteTool(isUuid), arguments, isUuid);
    }
  }

  lemma RegisteredNotFoundExactly(host: Host, store: Store, name: string, tool: Tool, arguments: Json,
                                  isUuid: string -> bool)
    requires name in host.registry && host.registry[name] == tool
    requires host.ctx.tenantId.Some? && host.ctx.tenantId.value != ""
    requires tool in [GetTicketTool(isUuid), UpdateTool(isUuid), DeleteTool(isUuid)]
    requires tool.parse(arguments).Valid? && arguments.JObject? && HasText(arguments.fields, "ticketId")
    requires Text(tool.parse(arguments).input, "ticketId") == Some(arguments.fields["ticketId"].s)
    ensures var e := Execute(host, store, name, arguments);
      var id := arguments.fields["ticketId"].s;
      && e.settled.Fulfilled?
      && (IsNotFound(e.settled.result) <==> !HasId(Project(host.ctx.tenantId.value, store.tickets), id))
      && (IsNotFound(e.settled.result) ==> e.store == store)
  {
    ToolNotFoundExactly(host, store, tool, tool.parse(arguments).input, arguments.fields["ticketId"].s, isUuid);
  }

  lemma {:induction false} SelectById<T(!new)>(rows: seq<Row<T>>, id: string)
    ensures Select(rows, ById<T>(id)) == [] <==> !HasId(rows, id)
    ensures forall r :: r in Select(rows, ById<T>(id)) ==> r.id == id
  {
    if rows != [] {
      var rest := rows[1..];
      SelectById(rest, id);
      assert ById<T>(id).Hits(rows[0]) <==> rows[0].id == id;
      if HasId(rest, id) {
        var i :| 0 <= i < |rest| && rest[i].id == id;
        assert rows[i + 1].id == id;
      }
      if HasId(rows, id) && rows[0].id != id {
        var i :| 0 <= i < |rows| && rows[i].id == id;
        assert rest[i - 1].id == id;
      }
    }
  }

  lemma FoundExactly(ctx: Context, store: Store, id: string)
    requires ctx.tenantId.Some? && ctx.tenantId.value != ""
    ensures FoundOne(ctx, store, id) == Throws(TicketNotFound)
        <==> !HasId(Project(ctx.tenantId.value, store.tickets), id)
    ensures FoundOne(ctx, store, id).Throws? ==> FoundOne(ctx, store, id) == Throws(TicketNotFound)
  {
    var tenant := ctx.tenantId.value;
    SelectProject(tenant, store.tickets, ById<Ticket>(id));
    SelectById(Project(tenant, store.tickets), id);
  }

  // ------------------------------------------------------------------ the loop

  lemma OthersKeptTwice<T(!new)>(tenant: string, a: seq<Row<T>>, b: seq<Row<T>>, c: seq<Row<T>>)
    requires OthersKept(tenant, a, b) && OthersKept(tenant, b, c)
    ensures OthersKept(tenant, a, c)
  {
    forall t | t != tenant ensures Project(t, c) == Project(t, a) {
      assert Project(t, b) == Project(t, a);
    }
  }

  lemma StoreKeptTwice(tenant: string, a: Store, b: Store, c: Store)
    requires StoreKept(tenant, a, b) && StoreKept(tenant, b, c)
    ensures StoreKept(tenant, a, c)
  {
    OthersKeptTwice(tenant, a.tickets, b.tickets, c.tickets);
  }

  /** The environment of a request of `tenant`, whose tools are isolated. */
  ghost predicate Tenanted(env: Env, uuid: nat -> string, tenant: string) {
    && tenant != ""
    && env.host.ctx.tenantId == Some(tenant)
    && IsolatedRegistry(uuid, tenant, env.host.registry)
  }

  ghost predicate AgreeStates(uuid: nat -> string, tenant: string, a: LoopState, b: LoopState) {
    a == b.(store := a.store, trace := a.trace) && Agree(uuid, tenant, a.store, b.store)
  }

  ghost predicate AgreeEndings(uuid: nat -> string, tenant: string, a: Ending, b: Ending) {
    && AgreeStates(uuid, tenant, a.s, b.s)
    && (if a.Ended? then b.Ended? && a.status == b.status && a.response == b.response
        else b.Aborted? && a.error == b.error)
  }

  lemma ExecuteAgrees(env: Env, uuid: nat -> string, tenant: string, a: Store, b: Store, name: string, arguments: Json)
    requires Tenanted(env, uuid, tenant) && Agree(uuid, tenant, a, b)
    ensures var ea, eb := Execute(env.host, a, name, arguments), Execute(env.host, b, name, arguments);
      && ea.settled == eb.settled
      && Agree(uuid, tenant, ea.store, eb.store)
      && StoreKept(tenant, a, ea.store)
  {
    var registry := env.host.registry;
    if name in registry && registry[name].parse(arguments).Valid? {
      assert IsolatedTool(uuid, tenant, registry[name]);
      assert IsolatedRun(uuid, tenant, registry[name], env.host.ctx, a, b, registry[name].parse(arguments).input);
    }
  }

  lemma {:induction false} AnswerJobsAgree(env: Env, uuid: nat -> string, tenant: string, mode: Mode, jobs: seq<Job>,
                                           a: LoopState, b: LoopState)
    requires Tenanted(env, uuid, tenant) && AgreeStates(uuid, tenant, a, b)
    ensures var ra, rb := AnswerJobs(env, mode, jobs, a), AnswerJobs(env, mode, jobs, b);
      && ra.error == rb.error
      && AgreeStates(uuid, tenant, ra.s, rb.s)
      && StoreKept(tenant, a.store, ra.s.store)
    decreases |jobs|
  {
    if jobs != [] {
      var call := jobs[0].call;
      var events := EventsOf(mode, jobs[0], a.acc.iterations);
      if !jobs[0].run {
        AnswerJobsAgree(env, uuid, tenant, mode, jobs[1..],
          Record(env, a, call, DENIED, a.store, events), Record(env, b, call, DENIED, b.store, events));
      } else {
        ExecuteAgrees(env, uuid, tenant, a.store, b.store, call.name, call.arguments);
        var ea := Execute(env.host, a.store, call.name, call.arguments);
        var eb := Execute(env.host, b.store, call.name, call.arguments);
        if ea.settled.Fulfilled? || mode.ReadOnly? {
          var result := SettledResult(ea.settled);
          var a1, b1 := Record(env, a, call, result, ea.store, events), Record(env, b, call, result, eb.store, events);
          AnswerJobsAgree(env, uuid, tenant, mode, jobs[1..], a1, b1);
          StoreKeptTwice(tenant, a.store, ea.store, AnswerJobs(env, mode, jobs[1..], a1).s.store);
        }
      }
    }
  }

  lemma AnswerSafeAgrees(env: Env, uuid: nat -> string, tenant: string, a: LoopState, b: LoopState, r: LlmResponse)
    requires Tenanted(env, uuid, tenant) && AgreeStates(uuid, tenant, a, b)
    ensures var ra, rb := AnswerSafe(env, a, r), AnswerSafe(env, b, r);
      && ra.error == rb.error
      && AgreeStates(uuid, tenant, ra.s, rb.s)
      && StoreKept(tenant, a.store, ra.s.store)
  {
    var registry := env.host.registry;
    var readJobs := RunAll(ReadOnlyCalls(registry, r.toolCalls));
    var writeJobs := RunAll(MutatingCalls(registry, r.toolCalls));
    var a1, b1 := AnswerJobs(env, ReadOnly, readJobs, Replied(a, r)).s,
        AnswerJobs(env, ReadOnly, readJobs, Replied(b, r)).s;
    AnswerJobsAgree(env, uuid, tenant, ReadOnly, readJobs, Replied(a, r), Replied(b, r));
    AnswerJobsAgree(env, uuid, tenant, Mutating, writeJobs, a1, b1);
    StoreKeptTwice(tenant, a.store, a1.store, AnswerJobs(env, Mutating, writeJobs, a1).s.store);
  }

  lemma BatchAgrees(env: Env, uuid: nat -> string, tenant: string, f: Frame, a: LoopState, b: LoopState, r: LlmResponse)
    requires Tenanted(env, uuid, tenant) && AgreeStates(uuid, tenant, a, b)
    ensures AgreeSteps(uuid, tenant, Batch(env, f, a, r), Batch(env, f, b, r))
    ensures StoreKept(tenant, a.store, StateOf(Batch(env, f, a, r)).store)
  {
    AnswerSafeAgrees(env, uuid, tenant, a, b, r);
  }

  ghost predicate AgreeSteps(uuid: nat -> string, tenant: string, a: Step, b: Step) {
    match a
    case Continue(s) => b.Continue? && AgreeStates(uuid, tenant, s, b.s)
    case Stop(ending) => b.Stop? && AgreeEndings(uuid, tenant, ending, b.ending)
  }

  lemma NoBatchAgrees(env: Env, uuid: nat -> string, tenant: string, f: Frame, a: LoopState, b: LoopState)
    requires AgreeStates(uuid, tenant, a, b) && !HasBatch(env, f, a)
    ensures AgreeSteps(uuid, tenant, Iterate(env, f, a), Iterate(env, f, b))
    ensures StateOf(Iterate(env, f, a)).store == a.store
  {
  }

  lemma IterateAgrees(env: Env, uuid: nat -> string, tenant: string, f: Frame, a: LoopState, b: LoopState)
    requires Tenanted(env, uuid, tenant) && AgreeStates(uuid, tenant, a, b)
    ensures AgreeSteps(uuid, tenant, Iterate(env, f, a), Iterate(env, f, b))
    ensures StoreKept(tenant, a.store, StateOf(Iterate(env, f, a)).store)
  {
    if !HasBatch(env, f, a) {
      NoBatchAgrees(env, uuid, tenant, f, a, b);
    } else {
      IterateCases(env, f, a);
      IterateCases(env, f, b);
      BatchAgrees(env, uuid, tenant, f, BatchStart(env, f, a), BatchStart(env, f, b), BatchReply(env, f, a));
    }
  }

  lemma {:induction false} LoopAgrees(env: Env, uuid: nat -> string, tenant: string, f: Frame, a: LoopState,
                                      b: LoopState)
    requires Tenanted(env, uuid, tenant) && AgreeStates(uuid, tenant, a, b)
    ensures AgreeEndings(uuid, tenant, RunLoop(env, f, a), RunLoop(env, f, b))
    ensures StoreKept(tenant, a.store, RunLoop(env, f, a).s.store)
    decreases env.budget.maxIterations - a.acc.iterations
  {
    if a.acc.iterations < env.budget.maxIterations {
      IterateAdvances(env, f, a);
      IterateAgrees(env, uuid, tenant, f, a, b);
      var sa, sb := Iterate(env, f, a), Iterate(env, f, b);
      if sa.Continue? {
        LoopAgrees(env, uuid, tenant, f, sa.s, sb.s);
        StoreKeptTwice(tenant, a.store, sa.s.store, RunLoop(env, f, sa.s).s.store);
      }
    }
  }

  lemma StartAgrees(env: Env, uuid: nat -> string, tenant: string, conversationId: string, system: string,
                    a: LoopState, b: LoopState)
    requires Tenanted(env, uuid, tenant) && AgreeStates(uuid, tenant, a, b)
    ensures AgreeEndings(uuid, tenant, StartLoop(env, conversationId, system, a),
                         StartLoop(env, conversationId, system, b))
    ensures StoreKept(tenant, a.store, StartLoop(env, conversationId, system, a).s.store)
  {
    hide RunLoop;
    var f := Frame(conversationId, system, env.clock(a.meter.readings));
    var later := a.meter.(readings := a.meter.readings + 1);
    LoopAgrees(env, uuid, tenant, f, a.(meter := later), b.(meter := later));
  }

  // ------------------------------------------------------------- one request

  ghost predicate AgreeSessions(uuid: nat -> string, tenant: string, a: Session, b: Session) {
    a == b.(store := a.store, trace := a.trace) && Agree(uuid, tenant, a.store, b.store)
  }

  lemma ApproveAgrees(env: Env, uuid: nat -> string, tenant: string, a: Session, b: Session, jobs: seq<Job>)
    requires Tenanted(env, uuid, tenant) && AgreeSessions(uuid, tenant, a, b)
    ensures AgreeEndings(uuid, tenant, ApproveEnding(env, a, jobs), ApproveEnding(env, b, jobs))
    ensures StoreKept(tenant, a.store, ApproveEnding(env, a, jobs).s.store)
  {
    AnswerJobsAgree(env, uuid, tenant, Decided, jobs, ApproveStart(a), ApproveStart(b));
    var da, db := AnswerJobs(env, Decided, jobs, ApproveStart(a)), AnswerJobs(env, Decided, jobs, ApproveStart(b));
    if da.error.None? {
      StartAgrees(env, uuid, tenant, a.conversationId, env.defaultSystem, da.s, db.s);
      StoreKeptTwice(tenant, a.store, da.s.store,
        StartLoop(env, a.conversationId, env.defaultSystem, da.s).s.store);
    }
  }

  lemma PersistAgrees(uuid: nat -> string, tenant: string, a: Session, b: Session, ea: Ending, eb: Ending)
    requires AgreeSessions(uuid, tenant, a, b) && AgreeEndings(uuid, tenant, ea, eb)
    ensures AgreeSessions(uuid, tenant, Persist(a, ea).0, Persist(b, eb).0)
    ensures Persist(a, ea).1 == Persist(b, eb).1
  {
  }

  lemma ServeAgrees(env: Env, uuid: nat -> string, tenant: string, a: Session, b: Session, request: AgentLoop.Request)
    requires Tenanted(env, uuid, tenant) && AgreeSessions(uuid, tenant, a, b)
    ensures Serve(env, a, request).1 == Serve(env, b, request).1
    ensures AgreeSessions(uuid, tenant, Serve(env, a, request).0, Serve(env, b, request).0)
    ensures StoreKept(tenant, a.store, Serve(env, a, request).0.store)
  {
    match request
    case Chat(text, system) =>
      StartAgrees(env, uuid, tenant, a.conversationId, system.GetOr(env.defaultSystem), ChatStart(a, text),
                  ChatStart(b, text));
      PersistAgrees(uuid, tenant, a, b, ChatEnding(env, a, text, system), ChatEnding(env, b, text, system));
    case Approve(decisions) =>
      var checked := CheckApproval(env.host.registry, a.history, decisions);
      if checked.Jobs? {
        ApproveAgrees(env, uuid, tenant, a, b, checked.jobs);
        PersistAgrees(uuid, tenant, a, b, ApproveEnding(env, a, checked.jobs), ApproveEnding(env, b, checked.jobs));
      }
  }

  // ------------------------------------------------------------- the API

  /** Two worlds `tenant` cannot tell apart: they may differ in every other tenant's rows. */
  ghost predicate AgreeWorlds(uuid: nat -> string, tenant: string, a: World, b: World) {
    && Project(tenant, a.conversations) == Project(tenant, b.conversations)
    && Unused(uuid, tenant, a.conversations, a.store.drawn)
    && Unused(uuid, tenant, b.conversations, b.store.drawn)
    && Agree(uuid, tenant, a.store, b.store)
    && a.meter == b.meter
  }

  ghost predicate OthersUntouched(tenant: string, before: World, after: World) {
    && OthersKept(tenant, before.conversations, after.conversations)
    && OthersKept(tenant, before.store.tickets, after.store.tickets)
  }

  lemma FindAgrees(env: Env, uuid: nat -> string, tenant: string, a: World, b: World, id: string)
    requires Tenanted(env, uuid, tenant) && AgreeWorlds(uuid, tenant, a, b)
    ensures FindIn(env.host.ctx, a.conversations, id) == FindIn(env.host.ctx, b.conversations, id)
  {
    ScopedAgree(tenant, Find(ById<Conversation>(id), false), a.conversations, b.conversations);
  }

  /** Serving a row both worlds show to the tenant. */
  lemma ServeRowAgrees(env: Env, uuid: nat -> string, tenant: string, a: World, b: World, row: Row<Conversation>,
                       request: AgentLoop.Request)
    requires Tenanted(env, uuid, tenant) && AgreeWorlds(uuid, tenant, a, b)
    ensures ServeRow(env, a, row, request).1 == ServeRow(env, b, row, request).1
    ensures AgreeWorlds(uuid, tenant, ServeRow(env, a, row, request).0, ServeRow(env, b, row, request).0)
    ensures OthersUntouched(tenant, a, ServeRow(env, a, row, request).0)
  {
    hide RunLoop;
    ServeAgrees(env, uuid, tenant, SessionOf(a, row), SessionOf(b, row), request);
    var (na, served) := Serve(env, SessionOf(a, row), request);
    var nb := Serve(env, SessionOf(b, row), request).0;
    var op := Update(ById(row.id), SetMessages(na.history, Some(na.status)));
    ScopedAgree(tenant, op, a.conversations, b.conversations);
    var ra, rb := ServeRow(env, a, row, request).0, ServeRow(env, b, row, request).0;
    UnusedKept(uuid, tenant, a.conversations, ra.conversations, a.store.drawn, na.store.drawn);
    UnusedKept(uuid, tenant, b.conversations, rb.conversations, b.store.drawn, nb.store.drawn);
  }

  lemma OpenedAgrees(env: Env, uuid: nat -> string, tenant: string, a: World, b: World, history: seq<ChatMessage>)
    requires Tenanted(env, uuid, tenant) && AgreeWorlds(uuid, tenant, a, b)
    ensures Opened(env, uuid, a, history).1 == Opened(env, uuid, b, history).1
    ensures AgreeWorlds(uuid, tenant, Opened(env, uuid, a, history).0, Opened(env, uuid, b, history).0)
    ensures OthersUntouched(tenant, a, Opened(env, uuid, a, history).0)
  {
    var ctx := env.host.ctx;
    var op := Create(Payload(uuid(a.store.drawn), ctx.tenantId, Conversation(ctx.userId, Messages(history), ACTIVE)));
    assert NewIds(op) == [uuid(a.store.drawn)];
    ScopedAgree(tenant, op, a.conversations, b.conversations);
    UnusedKept(uuid, tenant, a.conversations, ScopedExec(Some(tenant), op, a.conversations).rows, a.store.drawn,
               a.store.drawn + 1);
    UnusedKept(uuid, tenant, b.conversations, ScopedExec(Some(tenant), op, b.conversations).rows, b.store.drawn,
               b.store.drawn + 1);
  }

  lemma ServeExistingAgrees(env: Env, uuid: nat -> string, tenant: string, a: World, b: World, id: string,
                            request: AgentLoop.Request)
    requires Tenanted(env, uuid, tenant) && AgreeWorlds(uuid, tenant, a, b)
    ensures ServeExisting(env, a, id, request).1 == ServeExisting(env, b, id, request).1
    ensures AgreeWorlds(uuid, tenant, ServeExisting(env, a, id, request).0, ServeExisting(env, b, id, request).0)
    ensures OthersUntouched(tenant, a, ServeExisting(env, a, id, request).0)
  {
    FindAgrees(env, uuid, tenant, a, b, id);
    var found := FindIn(env.host.ctx, a.conversations, id);
    if found.Have? {
      ServeRowAgrees(env, uuid, tenant, a, b, found.row, request);
    }
  }

  lemma ServeNewAgrees(env: Env, uuid: nat -> string, tenant: string, a: World, b: World, history: seq<ChatMessage>,
                       request: AgentLoop.Request)
    requires Tenanted(env, uuid, tenant) && AgreeWorlds(uuid, tenant, a, b)
    ensures ServeNew(env, uuid, a, history, request).1 == ServeNew(env, uuid, b, history, request).1
    ensures AgreeWorlds(uuid, tenant, ServeNew(env, uuid, a, history, request).0,
                        ServeNew(env, uuid, b, history, request).0)
    ensures OthersUntouched(tenant, a, ServeNew(env, uuid, a, history, request).0)
  {
    OpenedAgrees(env, uuid, tenant, a, b, history);
    var (a1, created) := Opened(env, uuid, a, history);
    var (b1, _) := Opened(env, uuid, b, history);
    if created.Have? {
      ServeRowAgrees(env, uuid, tenant, a1, b1, created.row, request);
      OthersKeptTwice(tenant, a.conversations, a1.conversations,
                      ServeRow(env, a1, created.row, request).0.conversations);
    }
  }

  /** Noninterference: for every model, clock and call, a request of `tenant` in two
      worlds it cannot tell apart gets the same result, the worlds stay
      indistinguishable to it, and no other tenant's rows change. */
  lemma CallsAgree(env: Env, uuid: nat -> string, tenant: string, a: World, b: World, call: ApiCall)
    requires Tenanted(env, uuid, tenant) && AgreeWorlds(uuid, tenant, a, b)
    ensures ServeCall(env, uuid, a, call).1 == ServeCall(env, uuid, b, call).1
    ensures AgreeWorlds(uuid, tenant, ServeCall(env, uuid, a, call).0, ServeCall(env, uuid, b, call).0)
    ensures OthersUntouched(tenant, a, ServeCall(env, uuid, a, call).0)
  {
    match call
    case ApproveCall(id, decisions) => ServeExistingAgrees(env, uuid, tenant, a, b, id, Approve(decisions));
    case ChatCall(text, history, system, id) =>
      if id.Some? && id.value != "" {
        ServeExistingAgrees(env, uuid, tenant, a, b, id.value, Chat(text, system));
      } else {
        ServeNewAgrees(env, uuid, tenant, a, b, history.GetOr([]), Chat(text, system));
      }
  }

  /** In particular for the application's own tools: no model can make the agent of
      one tenant show or touch another tenant's tickets or conversations. */
  lemma TicketAgentIsIsolated(env: Env, uuid: nat -> string, isUuid: string -> bool, tenant: string, a: World,
                              b: World, call: ApiCall)
    requires tenant != "" && env.host.ctx.tenantId == Some(tenant)
    requires env.host.registry == TicketRegistry(uuid, isUuid) && AgreeWorlds(uuid, tenant, a, b)
    ensures ServeCall(env, uuid, a, call).1 == ServeCall(env, uuid, b, call).1
    ensures AgreeWorlds(uuid, tenant, ServeCall(env, uuid, a, call).0, ServeCall(env, uuid, b, call).0)
    ensures OthersUntouched(tenant, a, ServeCall(env, uuid, a, call).0)
  {
    TicketToolsIsolated(uuid, isUuid, tenant);
    CallsAgree(env, uuid, tenant, a, b, call);
  }

  /** A conversation another tenant owns is not found: nothing is asked, run or stored. */
  lemma ForeignConversationIsNotFound(env: Env, uuid: nat -> string, w: World, id: string, decisions: seq<Decision>,
                                      text: string, history: Option<seq<ChatMessage>>, system: Option<string>)
    requires env.host.ctx.tenantId.Some? && env.host.ctx.tenantId.value != "" && id != ""
    ensures var absent := !HasId(Project(env.host.ctx.tenantId.value, w.conversations), id);
      && (absent <==> ServeCall(env, uuid, w, ApproveCall(id, decisions)) == (w, Failing(ConversationNotFound)))
      && (absent <==>
            ServeCall(env, uuid, w, ChatCall(text, history, system, Some(id))) == (w, Failing(ConversationNotFound)))
  {
    hide RunLoop;
    var tenant := env.host.ctx.tenantId.value;
    SelectProject(tenant, w.conversations, ById<Conversation>(id));
    SelectById(Project(tenant, w.conversations), id);
    var found := FindIn(env.host.ctx, w.conversations, id);
    if found.Have? {
      RowNeverNotFound(env, w, found.row, Approve(decisions));
      RowNeverNotFound(env, w, found.row, Chat(text, system));
    }
  }

  lemma RowNeverNotFound(env: Env, w: World, row: Row<Conversation>, request: AgentLoop.Request)
    ensures ServeRow(env, w, row, request).1 != Failing(ConversationNotFound)
  {
  }
}
