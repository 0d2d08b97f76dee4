/**
 The agent service itself: the loops and the objects they update in place, each
 method proved to do what the functions of `AgentLoop` and `Conversations` say.
 */
module AgentServices {
  import opened Prelude
  import opened LlmTypes
  import opened TenantScope
  import opened Tickets
  import opened Tools
  import opened AgentLoop
  import opened AgentShape
  import opened Conversations
  import Confluence

  /** The message array of one request. */
  class MessageList {
    var items: seq<ChatMessage>

    constructor (items: seq<ChatMessage>)
      ensures this.items == items
    {
      this.items := items;
    }
  }

  /** The mutable per-run accumulators. */
  class Accumulator {
    var toolCalls: seq<ToolCall>
    var toolResults: seq<ToolCallResult>
    var usage: Usage
    var iterations: int

    constructor (iterations: int)
      ensures Value() == Fresh(iterations)
    {
      toolCalls, toolResults, usage := [], [], Usage(0, 0);
      this.iterations := iterations;
    }

    function Value(): Accumulators
      reads this
    {
      Accumulators(toolCalls, toolResults, usage, iterations)
    }
  }

  class AgentService {
    const env: Env
    const uuid: nat -> string
    const schedule: (nat, nat) -> seq<nat>   // completion order of the n-th batch of k promises
    const conversations: ConversationService
    var store: Store
    var meter: Meter
    var trace: seq<Event>

    constructor (env: Env, uuid: nat -> string, schedule: (nat, nat) -> seq<nat>, conversations: ConversationService,
                 store: Store)
      requires conversations.Valid() && UnflaggedToolsOnlyRead(env.host.registry)
      requires forall n: nat, k: nat :: IsPermutation(schedule(n, k), k)
      ensures Valid()
      ensures this.env == env && this.uuid == uuid && this.conversations == conversations
      ensures Now() == World(conversations.client.rows, store, Meter(0, 0, 0), [])
    {
      this.env, this.uuid, this.schedule, this.conversations := env, uuid, schedule, conversations;
      this.store, meter, trace := store, Meter(0, 0, 0), [];
    }

    ghost predicate Valid() {
      && conversations.Valid()
      && UnflaggedToolsOnlyRead(env.host.registry)
      && forall n: nat, k: nat :: IsPermutation(schedule(n, k), k)
    }

    function Now(): World
      reads this, conversations.client
    {
      World(conversations.client.rows, store, meter, trace)
    }

    function State(messages: MessageList, acc: Accumulator): LoopState
      reads this, messages, acc
    {
      LoopState(messages.items, acc.Value(), store, meter, trace)
    }

    // ------------------------------------------------------------- retries

    /** Asks the model until it answers or the retry limit is reached, sleeping longer after each failure. */
    method CallLlmWithRetry(request: LlmRequest) returns (outcome: LlmOutcome, sleptMs: int)
      modifies this`meter
      ensures var call := CallLlm(env, request, old(meter.attempts));
        && outcome == call.outcome && sleptMs == call.sleptMs
        && meter == old(meter).(attempts := old(meter.attempts) + call.attempts)
    {
      var lastError := NO_ATTEMPT;
      var attempt := 1;
      sleptMs := 0;
      ghost var call := CallLlm(env, request, meter.attempts);
      while attempt <= env.maxRetries
        invariant attempt >= 1 && meter.attempts >= old(meter.attempts)
        invariant meter == old(meter).(attempts := meter.attempts)
        invariant var rest := AttemptFrom(env, request, meter.attempts, attempt, lastError);
          && call.outcome == rest.outcome
          && call.attempts == meter.attempts - old(meter.attempts) + rest.attempts
          && call.sleptMs == sleptMs + rest.sleptMs
        decreases env.maxRetries + 1 - attempt
      {
        var reply := env.llm(meter.attempts, request);
        meter := meter.(attempts := meter.attempts + 1);
        match reply
        case Reply(_) =>
          return reply, sleptMs;
        case Fails(error) =>
          lastError := error;
          if attempt < env.maxRetries {
            sleptMs := sleptMs + 500 * Pow2(attempt - 1);
          }
          attempt := attempt + 1;
      }
      outcome := Fails(lastError);
    }

    // ------------------------------------------------------ answering calls

    method ExecuteTool(call: ToolCall) returns (settled: Settled)
      modifies this`store
      ensures Execution(settled, store) == Execute(env.host, old(store), call.name, call.arguments)
    {
      var e := Execute(env.host, store, call.name, call.arguments);
      store := e.store;
      settled := e.settled;
    }

    /** Accumulates a result and appends its tool message. */
    method Push(call: ToolCall, result: ToolResult, events: seq<Event>, messages: MessageList, acc: Accumulator)
      modifies this`trace, messages, acc`toolCalls, acc`toolResults
      ensures State(messages, acc) == Record(env, old(State(messages, acc)), call, result, store, events)
    {
      acc.toolCalls := acc.toolCalls + [call];
      acc.toolResults := acc.toolResults + [RecordOf(call, result)];
      messages.items := messages.items + [AnswerTo(env.host, call, result)];
      trace := trace + events;
    }

    /** The completion order of the batch about to run. */
    function Order(count: nat): seq<nat>
      reads this
    {
      schedule(meter.asks, count)
    }

    /** Runs the calls in completion order; each promise settles at the index of its call. */
    method SettleAll(calls: seq<ToolCall>) returns (results: array<Settled>)
      requires Valid()
      modifies this`store
      ensures fresh(results) && results.Length == |calls|
      ensures IsPermutation(Order(|calls|), |calls|)
      ensures var (settled, after) := Confluence.Settle(env.host, old(store), calls, Order(|calls|));
        && store == after
        && forall i: nat :: i < |calls| ==> i in settled && results[i] == settled[i]
    {
      var order := Order(|calls|);
      assert IsPermutation(order, |calls|);
      results := new Settled[|calls|](_ => Rejected(""));
      for k := 0 to |order|
        invariant store == Confluence.Settle(env.host, old(store), calls, order[..k]).1
        invariant var settled := Confluence.Settle(env.host, old(store), calls, order[..k]).0;
          forall i: nat :: i in settled ==> i < |calls| && results[i] == settled[i]
      {
        assert order[..k + 1][..k] == order[..k];
        var settled := ExecuteTool(calls[order[k]]);
        results[order[k]] := settled;
      }
      assert order[..|order|] == order;
      Confluence.SettleKeys(env.host, old(store), calls, order);
    }

    /** Collects the settled promises in list order. */
    method CollectAll(calls: seq<ToolCall>, results: array<Settled>, ghost settled: map<nat, Settled>,
                      messages: MessageList, acc: Accumulator)
      requires results.Length == |calls| && forall k: nat :: k < |calls| ==> k in settled && results[k] == settled[k]
      modifies this`trace, messages, acc
      ensures State(messages, acc) == Confluence.Gather(env, calls, settled, 0, old(State(messages, acc)))
    {
      ghost var start := State(messages, acc);
      for i := 0 to |calls|
        invariant Confluence.Gather(env, calls, settled, i, State(messages, acc))
            == Confluence.Gather(env, calls, settled, 0, start)
      {
        match results[i]
        case Fulfilled(result) => Push(calls[i], result, [Ran(calls[i])], messages, acc);
        case Rejected(_) => Push(calls[i], UNEXPECTED, [Ran(calls[i])], messages, acc);
      }
    }

    /** Runs the read-only calls concurrently and collects them in list order. */
    method ExecuteReadOnly(calls: seq<ToolCall>, messages: MessageList, acc: Accumulator)
      requires Valid() && Confluence.AllReadOnly(env.host.registry, calls)
      modifies this`store, this`trace, messages, acc
      ensures State(messages, acc) == AnswerJobs(env, ReadOnly, RunAll(calls), old(State(messages, acc))).s
      ensures meter == old(meter)
    {
      if |calls| == 0 {
        return;
      }
      ghost var start, order := State(messages, acc), Order(|calls|);
      var results := SettleAll(calls);
      ghost var settled := Confluence.Settle(env.host, start.store, calls, order).0;
      CollectAll(calls, results, settled, messages, acc);
      Confluence.EveryOrderIsSequential(env, calls, order, start);
    }

    /** Answers jobs one after the other; the first rejecting tool stops everything. */
    method ExecuteInOrder(mode: Mode, jobs: seq<Job>, messages: MessageList, acc: Accumulator)
      returns (error: Option<string>)
      requires !mode.ReadOnly?
      modifies this`store, this`trace, messages, acc
      ensures Answering(State(messages, acc), error) == AnswerJobs(env, mode, jobs, old(State(messages, acc)))
      ensures meter == old(meter)
    {
      ghost var start := State(messages, acc);
      var i := 0;
      while i < |jobs|
        invariant 0 <= i <= |jobs| && meter == start.meter
        invariant AnswerJobs(env, mode, jobs[i..], State(messages, acc)) == AnswerJobs(env, mode, jobs, start)
      {
        var job := jobs[i];
        var events := EventsOf(mode, job, acc.iterations);
        assert jobs[i..][1..] == jobs[i + 1..];
        if job.run {
          var settled := ExecuteTool(job.call);
          match settled
          case Fulfilled(result) => Push(job.call, result, events, messages, acc);
          case Rejected(message) =>
            acc.toolCalls := acc.toolCalls + [job.call];
            trace := trace + [Ran(job.call)];
            return Some(message);
        } else {
          Push(job.call, DENIED, events, messages, acc);
        }
        i := i + 1;
      }
      error := None;
    }

    /** Splits a batch three ways, keeping the order within each. */
    method Partition(calls: seq<ToolCall>)
      returns (readOnly: seq<ToolCall>, mutating: seq<ToolCall>, needsApproval: seq<ToolCall>)
      ensures readOnly == ReadOnlyCalls(env.host.registry, calls)
      ensures mutating == MutatingCalls(env.host.registry, calls)
      ensures needsApproval == ApprovalCalls(env.host.registry, calls)
    {
      readOnly, mutating, needsApproval := [], [], [];
      for i := 0 to |calls|
        invariant readOnly == ReadOnlyCalls(env.host.registry, calls[..i])
        invariant mutating == MutatingCalls(env.host.registry, calls[..i])
        invariant needsApproval == ApprovalCalls(env.host.registry, calls[..i])
      {
        var call := calls[i];
        PartitionNext(env.host.registry, calls[..i], call);
        assert calls[..i] + [call] == calls[..i + 1];
        if NeedsApproval(env.host.registry, call.name) {
          needsApproval := needsApproval + [call];
        } else if IsMutating(env.host.registry, call.name) {
          mutating := mutating + [call];
        } else {
          readOnly := readOnly + [call];
        }
      }
      assert calls[..|calls|] == calls;
    }

    // ------------------------------------------------------------ the loop

    /** Persists the end of a loop: the row is updated, then the response is returned. */
    method PersistRow(f: Frame, messages: MessageList, status: ConversationStatus, response: ChatResponse)
      returns (result: ApiResult)
      requires Valid()
      modifies conversations.client
      ensures var (saved, rows) := UpdateIn(env.host.ctx, old(conversations.client.rows), f.conversationId,
                                            messages.items, Some(status));
        && conversations.client.rows == rows
        && result == if saved.Have? then Done(Responded(response)) else Failing(saved)
    {
      var saved := conversations.UpdateMessages(env.host.ctx, f.conversationId, messages.items, Some(status));
      result := if saved.Have? then Done(Responded(response)) else Failing(saved);
    }

    /** The world and result after `ending`, whose persisting starts from `rows`. */
    ghost predicate Finished(f: Frame, ending: Ending, rows: seq<Row<Conversation>>, result: ApiResult)
      reads this, conversations.client
    {
      && store == ending.s.store && meter == ending.s.meter && trace == ending.s.trace
      && match ending
         case Aborted(_, error) => result == Done(Crashed(error)) && conversations.client.rows == rows
         case Ended(s, status, response) =>
           var (saved, rows') := UpdateIn(env.host.ctx, rows, f.conversationId, s.messages, Some(status));
           && conversations.client.rows == rows'
           && result == if saved.Have? then Done(Responded(response)) else Failing(saved)
    }

    /** One batch of tool calls: the safe calls run; a pause or a rejection ends the request. */
    method ExecuteBatch(f: Frame, r: LlmResponse, messages: MessageList, acc: Accumulator)
      returns (ended: Option<ApiResult>)
      requires Valid()
      modifies this`store, this`trace, messages, acc, conversations.client
      ensures meter == old(meter)
      ensures var step := Batch(env, f, old(State(messages, acc)), r);
        match step
        case Continue(s) =>
          ended.None? && State(messages, acc) == s && conversations.client.rows == old(conversations.client.rows)
        case Stop(ending) =>
          ended.Some? && Finished(f, ending, old(conversations.client.rows), ended.value)
    {
      messages.items := messages.items + [AssistantMessage(r.content, r.toolCalls)];
      var readOnly, mutating, needsApproval := Partition(r.toolCalls);
      assert Confluence.AllReadOnly(env.host.registry, readOnly) by {
        PartitionMembers(env.host.registry, r.toolCalls);
      }
      ExecuteReadOnly(readOnly, messages, acc);
      var error := ExecuteInOrder(Mutating, RunAll(mutating), messages, acc);
      if error.Some? {
        return Some(Done(Crashed(error.value)));
      }
      if |needsApproval| > 0 {
        var pause := Pause(f, State(messages, acc), needsApproval);
        trace := trace + [AwaitingApproval(needsApproval, acc.iterations)];
        var result := PersistRow(f, messages, PAUSED, pause.response);
        return Some(result);
      }
      ended := None;
    }

    /** The composite budget check before each model call. */
    method CheckBudgetNow(f: Frame, acc: Accumulator) returns (stop: Option<Note>)
      modifies this`meter
      ensures stop == CheckBudget(env.budget, acc.Value(), env.clock(old(meter.readings)) - f.startTime)
      ensures meter == old(meter).(
        readings := old(meter.readings) + if ReadsClock(env.budget, acc.Value()) then 1 else 0)
    {
      if acc.iterations >= env.budget.maxIterations {
        return Some(IterationsReached);
      }
      if acc.usage.Total() >= env.budget.maxTotalTokens {
        return Some(TokensExceeded(acc.usage.Total()));
      }
      var now := env.clock(meter.readings);
      meter := meter.(readings := meter.readings + 1);
      if now - f.startTime >= env.budget.maxWallClockMs {
        return Some(WallClockExceeded);
      }
      stop := None;
    }

    /** One pass of the loop body. */
    method IterateOnce(f: Frame, messages: MessageList, acc: Accumulator) returns (ended: Option<ApiResult>)
      requires Valid()
      modifies this`store, this`meter, this`trace, messages, acc, conversations.client
      ensures var step := Iterate(env, f, old(State(messages, acc)));
        match step
        case Continue(s) =>
          ended.None? && State(messages, acc) == s && conversations.client.rows == old(conversations.client.rows)
        case Stop(ending) =>
          ended.Some? && Finished(f, ending, old(conversations.client.rows), ended.value)
    {
      ghost var start := State(messages, acc);
      var stop := CheckBudgetNow(f, acc);
      assert State(messages, acc) == AfterCheck(env, start);
      if stop.Some? {
        var result := PersistRow(f, messages, COMPLETED, Respond(f, State(messages, acc), stop.value, MaxIterations));
        return Some(result);
      }
      acc.iterations := acc.iterations + 1;
      var request := RequestOf(env, f, messages.items);
      var used := meter.attempts;
      var outcome, sleptMs := CallLlmWithRetry(request);
      trace := trace + [Asked(request, meter.attempts - used)];
      meter := meter.(asks := meter.asks + 1);
      assert State(messages, acc) == AfterAsk(env, f, AfterCheck(env, start));
      match outcome
      case Fails(error) =>
        return Some(Done(Crashed(error)));
      case Reply(r) =>
        acc.usage := Usage(acc.usage.inputTokens + r.usage.inputTokens, acc.usage.outputTokens + r.usage.outputTokens);
        trace := trace + [Iteration(acc.iterations, r.stopReason, |r.toolCalls|, r.usage)];
        assert State(messages, acc) == AfterReply(AfterAsk(env, f, AfterCheck(env, start)), r);
        if r.stopReason != ToolUse || |r.toolCalls| == 0 {
          var response := Respond(f, State(messages, acc), Said(r.content), r.stopReason);
          var result := PersistRow(f, messages, COMPLETED, response);
          return Some(result);
        }
        ended := ExecuteBatch(f, r, messages, acc);
    }

    /** The agentic loop: iterate until the request ends or the iterations are used up. */
    method Loop(f: Frame, messages: MessageList, acc: Accumulator) returns (result: ApiResult)
      requires Valid()
      modifies this`store, this`meter, this`trace, messages, acc, conversations.client
      ensures Finished(f, RunLoop(env, f, old(State(messages, acc))), old(conversations.client.rows), result)
    {
      ghost var start := State(messages, acc);
      while acc.iterations < env.budget.maxIterations
        invariant Valid() && conversations.client.rows == old(conversations.client.rows)
        invariant RunLoop(env, f, State(messages, acc)) == RunLoop(env, f, start)
        decreases env.budget.maxIterations - acc.iterations
      {
        IterateAdvances(env, f, State(messages, acc));
        var ended := IterateOnce(f, messages, acc);
        if ended.Some? {
          return ended.value;
        }
      }
      result := PersistRow(f, messages, COMPLETED, Respond(f, State(messages, acc), IterationsReached, MaxIterations));
    }

    /** Reads the start time, then loops. */
    method RunLoopNow(conversationId: string, system: string, messages: MessageList, acc: Accumulator)
      returns (result: ApiResult)
      requires Valid()
      modifies this`store, this`meter, this`trace, messages, acc, conversations.client
      ensures Finished(Frame(conversationId, system, env.clock(old(meter.readings))),
                       StartLoop(env, conversationId, system, old(State(messages, acc))),
                       old(conversations.client.rows), result)
    {
      var f := Frame(conversationId, system, env.clock(meter.readings));
      meter := meter.(readings := meter.readings + 1);
      result := Loop(f, messages, acc);
    }

    // ------------------------------------------------------------ the API

    /** Loads the conversation, or creates one, and runs the agent on the user's message. */
    method Chat(text: string, history: Option<seq<ChatMessage>>, system: Option<string>, conversationId: Option<string>)
      returns (result: ApiResult)
      requires Valid()
      modifies this, conversations.client
      ensures Valid()
      ensures (Now(), result) == ServeCall(env, uuid, old(Now()), ChatCall(text, history, system, conversationId))
    {
      var existing: ConversationAnswer;
      if conversationId.Some? && conversationId.value != "" {
        existing := conversations.Find(env.host.ctx, conversationId.value);
      } else {
        var id := uuid(store.drawn);
        existing := conversations.Create(env.host.ctx, id, history.GetOr([]));
        store := store.(drawn := store.drawn + 1);
      }
      match existing
      case Have(row) =>
        var messages := new MessageList(ToMessages(row.body.messages) + [UserMessage(text)]);
        var acc := new Accumulator(0);
        result := RunLoopNow(row.id, system.GetOr(env.defaultSystem), messages, acc);
      case failure =>
        result := Failing(failure);
    }

    /** Fills the decision table, refusing duplicates and ids that are not pending. */
    method CollectDecisions(pending: seq<ToolCall>, decisions: seq<Decision>) returns (collected: Collected)
      ensures collected == Collect(pending, decisions, map[])
    {
      var decisionById: map<string, bool> := map[];
      assert decisions[0..] == decisions;
      for i := 0 to |decisions|
        invariant Collect(pending, decisions[i..], decisionById) == Collect(pending, decisions, map[])
      {
        var d := decisions[i];
        assert decisions[i..][0] == d && decisions[i..][1..] == decisions[i + 1..];
        if d.toolCallId in decisionById {
          return Bad(DuplicateDecision(d.toolCallId));
        }
        if !HasCall(pending, d.toolCallId) {
          return Bad(UnknownToolCall(d.toolCallId));
        }
        decisionById := decisionById[d.toolCallId := d.approved];
      }
      collected := Decisions(decisionById);
    }

    /** The first pending call that is not part of the approval flow, if any. */
    method FirstUndecidable(pending: seq<ToolCall>) returns (refusal: Option<BadRequest>)
      ensures refusal == Undecidable(env.host.registry, pending)
    {
      assert pending[0..] == pending;
      for i := 0 to |pending|
        invariant Undecidable(env.host.registry, pending[i..]) == Undecidable(env.host.registry, pending)
      {
        assert pending[i..][0] == pending[i] && pending[i..][1..] == pending[i + 1..];
        if !NeedsApproval(env.host.registry, pending[i].name) {
          return Some(NotInApprovalFlow(pending[i].name));
        }
      }
      refusal := None;
    }

    /** All checks of an approval, in order. */
    method CheckDecisions(history: seq<ChatMessage>, decisions: seq<Decision>) returns (checked: Checked)
      ensures checked == CheckApproval(env.host.registry, history, decisions)
    {
      var pending := Pending(history);
      if |pending| == 0 {
        return Refusal(NoPendingCalls);
      }
      var collected := CollectDecisions(pending, decisions);
      if collected.Bad? {
        return Refusal(collected.reason);
      }
      var refusal := FirstUndecidable(pending);
      if refusal.Some? {
        return Refusal(refusal.value);
      }
      checked := Jobs(Effective(pending, collected.byId));
    }

    /** Resumes a paused conversation: answers every pending call as decided, then loops. */
    method Approve(pausedId: string, decisions: seq<Decision>) returns (result: ApiResult)
      requires Valid()
      modifies this, conversations.client
      ensures Valid()
      ensures (Now(), result) == ServeCall(env, uuid, old(Now()), ApproveCall(pausedId, decisions))
    {
      var existing := conversations.Find(env.host.ctx, pausedId);
      match existing
      case Have(row) =>
        var history := ToMessages(row.body.messages);
        var checked := CheckDecisions(history, decisions);
        match checked {
          case Refusal(reason) =>
            result := Done(Refused(reason));
          case Jobs(jobs) =>
            var messages := new MessageList(history);
            var acc := new Accumulator(1);
            var error := ExecuteInOrder(Decided, jobs, messages, acc);
            if error.Some? {
              return Done(Crashed(error.value));
            }
            result := RunLoopNow(row.id, env.defaultSystem, messages, acc);
        }
      case failure =>
        result := Failing(failure);
    }
  }
}
