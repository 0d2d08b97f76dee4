/**
 What the agent does, as functions on values: calling the model with retries,
 one iteration of the loop, the loop, and the two requests on a conversation.

 The model, the clock and the id generator are arbitrary functions of how often
 they were used before, so a statement for every `Env` is one for every behaviour.
 */
module AgentLoop {
  import opened Prelude
  import opened LlmTypes
  import opened TenantScope
  import opened Tickets
  import opened Tools

  datatype LlmOutcome = Reply(response: LlmResponse) | Fails(error: string)

  datatype LoopBudget = LoopBudget(maxIterations: int, maxTotalTokens: int, maxWallClockMs: int)

  datatype Env = Env(
    host: Host,
    tools: seq<ToolDefinition>,
    llm: (nat, LlmRequest) -> LlmOutcome,   // by number of earlier attempts
    clock: nat -> int,                      // by number of earlier readings
    budget: LoopBudget,
    maxRetries: int,
    defaultSystem: string)

  datatype ToolCallResult = ToolCallResult(id: string, name: string, success: bool, result: Json)

  datatype Accumulators = Accumulators(
    toolCalls: seq<ToolCall>,
    toolResults: seq<ToolCallResult>,
    usage: Usage,
    iterations: int)

  /** How often the model was asked (and attempted), and the clock read. */
  datatype Meter = Meter(asks: nat, attempts: nat, readings: nat)

  /** What an observer of the process sees happen, in order. `Ran` is a call handed to
      the registry, which runs its tool unless the arguments do not validate. */
  datatype Event =
    | Asked(request: LlmRequest, attempts: nat)
    | Iteration(iteration: int, stopReason: StopReason, toolCallCount: nat, usage: Usage)
    | Ran(call: ToolCall)
    | ApprovalGranted(call: ToolCall, iteration: int)
    | ApprovalDenied(call: ToolCall, iteration: int)
    | AwaitingApproval(calls: seq<ToolCall>, iteration: int)

  datatype LoopState = LoopState(
    messages: seq<ChatMessage>,
    acc: Accumulators,
    store: Store,
    meter: Meter,
    trace: seq<Event>)

  /** What the text of a response says. */
  datatype Note =
    | Said(content: string)
    | NeedsYourApproval
    | TokensExceeded(total: nat)
    | WallClockExceeded
    | IterationsReached

  datatype ChatResponse = ChatResponse(
    conversationId: string,
    note: Note,
    toolCalls: seq<ToolCall>,
    toolResults: seq<ToolCallResult>,
    usage: Usage,
    stopReason: StopReason,
    iterations: int,
    awaitingApproval: Option<seq<ToolCall>>)

  datatype ConversationStatus = ACTIVE | PAUSED | COMPLETED

  // --------------------------------------------------------------- retries

  function Pow2(n: nat): nat {
    if n == 0 then 1 else 2 * Pow2(n - 1)
  }

  datatype Attempted = Attempted(outcome: LlmOutcome, attempts: nat, sleptMs: int)

  const NO_ATTEMPT := "LLM call failed after retries"

  /** Attempts `attempt`, `attempt + 1`, ... up to the retry limit, sleeping between failures. */
  function AttemptFrom(env: Env, request: LlmRequest, used: nat, attempt: nat, lastError: string): Attempted
    decreases env.maxRetries + 1 - attempt
  {
    if attempt > env.maxRetries then Attempted(Fails(lastError), 0, 0)
    else
      match env.llm(used, request)
      case Reply(response) => Attempted(Reply(response), 1, 0)
      case Fails(error) =>
        var delay := if 0 < attempt < env.maxRetries then 500 * Pow2(attempt - 1) else 0;
        var rest := AttemptFrom(env, request, used + 1, attempt + 1, error);
        Attempted(rest.outcome, rest.attempts + 1, rest.sleptMs + delay)
  }

  function CallLlm(env: Env, request: LlmRequest, used: nat): Attempted {
    AttemptFrom(env, request, used, 1, NO_ATTEMPT)
  }

  // ------------------------------------------------------- answering calls

  function ErrorJson(error: ToolError): Json {
    JObject(map["code" := JString(CodeName(error.code)), "message" := JString(error.message)])
  }

  function CodeName(code: ToolErrorCode): string {
    match code
    case NOT_FOUND => "NOT_FOUND"
    case VALIDATION_ERROR => "VALIDATION_ERROR"
    case INTERNAL_ERROR => "INTERNAL_ERROR"
    case REJECTED_BY_USER => "REJECTED_BY_USER"
  }

  function ResultJson(result: ToolResult): Json {
    match result
    case Success(data) => data
    case Failed(error) => ErrorJson(error)
  }

  const DENIED := Failed(ToolError(REJECTED_BY_USER, "The user denied this action."))
  const UNEXPECTED := Failed(ToolError(INTERNAL_ERROR, "Tool execution failed unexpectedly"))

  function RecordOf(call: ToolCall, result: ToolResult): ToolCallResult {
    ToolCallResult(call.id, call.name, result.Success?, ResultJson(result))
  }

  function AnswerTo(host: Host, call: ToolCall, result: ToolResult): ChatMessage {
    ToolMessage(host.stringify(ResultJson(result)), call.id)
  }

  /** One answered call: its result is accumulated and its tool message appended. */
  function Record(env: Env, s: LoopState, call: ToolCall, result: ToolResult, store: Store, events: seq<Event>)
    : LoopState
  {
    s.(acc := s.acc.(toolCalls := s.acc.toolCalls + [call],
                     toolResults := s.acc.toolResults + [RecordOf(call, result)]),
       messages := s.messages + [AnswerTo(env.host, call, result)],
       store := store,
       trace := s.trace + events)
  }

  /** A call to answer: run it, or answer that the user denied it. */
  datatype Job = Job(call: ToolCall, run: bool)

  /** The three ways calls are answered: the read-only bucket survives a rejecting
      promise, mutating calls and decided calls do not. */
  datatype Mode = ReadOnly | Mutating | Decided

  datatype Answering = Answering(s: LoopState, error: Option<string>)

  function EventsOf(mode: Mode, job: Job, iteration: int): seq<Event> {
    (if job.run then [Ran(job.call)] else [])
    + (if !mode.Decided? then []
       else if job.run then [ApprovalGranted(job.call, iteration)]
       else [ApprovalDenied(job.call, iteration)])
  }

  /** Answers the jobs in order. A rejection outside the read-only bucket stops everything. */
  function AnswerJobs(env: Env, mode: Mode, jobs: seq<Job>, s: LoopState): Answering {
    if jobs == [] then Answering(s, None)
    else
      var call := jobs[0].call;
      var events := EventsOf(mode, jobs[0], s.acc.iterations);
      if !jobs[0].run then
        AnswerJobs(env, mode, jobs[1..], Record(env, s, call, DENIED, s.store, events))
      else
        var e := Execute(env.host, s.store, call.name, call.arguments);
        match e.settled
        case Fulfilled(result) =>
          AnswerJobs(env, mode, jobs[1..], Record(env, s, call, result, e.store, events))
        case Rejected(message) =>
          if mode.ReadOnly? then
            AnswerJobs(env, mode, jobs[1..], Record(env, s, call, UNEXPECTED, e.store, events))
          else
            Answering(s.(acc := s.acc.(toolCalls := s.acc.toolCalls + [call]),
                         store := e.store, trace := s.trace + [Ran(call)]), Some(message))
  }

  function RunAll(calls: seq<ToolCall>): seq<Job> {
    if calls == [] then [] else [Job(calls[0], true)] + RunAll(calls[1..])
  }

  // -------------------------------------------------------------- the loop

  function ReadOnlyCalls(registry: Registry, calls: seq<ToolCall>): seq<ToolCall> {
    if calls == [] then []
    else (if IsReadOnly(registry, calls[0].name) then [calls[0]] else []) + ReadOnlyCalls(registry, calls[1..])
  }

  function MutatingCalls(registry: Registry, calls: seq<ToolCall>): seq<ToolCall> {
    if calls == [] then []
    else (if IsMutating(registry, calls[0].name) then [calls[0]] else []) + MutatingCalls(registry, calls[1..])
  }

  function ApprovalCalls(registry: Registry, calls: seq<ToolCall>): seq<ToolCall> {
    if calls == [] then []
    else (if NeedsApproval(registry, calls[0].name) then [calls[0]] else []) + ApprovalCalls(registry, calls[1..])
  }

  /** What stays fixed while one request loops. */
  datatype Frame = Frame(conversationId: string, system: string, startTime: int)

  /** The end of a request: it persists a history and answers, or it throws. */
  datatype Ending =
    | Ended(s: LoopState, status: ConversationStatus, response: ChatResponse)
    | Aborted(s: LoopState, error: string)

  datatype Step = Stop(ending: Ending) | Continue(s: LoopState)

  function Respond(f: Frame, s: LoopState, note: Note, stopReason: StopReason): ChatResponse {
    ChatResponse(f.conversationId, note, s.acc.toolCalls, s.acc.toolResults, s.acc.usage, stopReason, s.acc.iterations,
                 None)
  }

  function Complete(f: Frame, s: LoopState, note: Note, stopReason: StopReason): Ending {
    Ended(s, COMPLETED, Respond(f, s, note, stopReason))
  }

  function Pause(f: Frame, s: LoopState, calls: seq<ToolCall>): Ending {
    var s' := s.(trace := s.trace + [AwaitingApproval(calls, s.acc.iterations)]);
    Ended(s', PAUSED, Respond(f, s', NeedsYourApproval, ToolUse).(
      toolCalls := s'.acc.toolCalls + calls, awaitingApproval := Some(calls)))
  }

  /** The composite budget. The clock is read only when the first two checks pass. */
  function CheckBudget(budget: LoopBudget, acc: Accumulators, elapsedMs: int): Option<Note> {
    if acc.iterations >= budget.maxIterations then Some(IterationsReached)
    else if acc.usage.Total() >= budget.maxTotalTokens then Some(TokensExceeded(acc.usage.Total()))
    else if elapsedMs >= budget.maxWallClockMs then Some(WallClockExceeded)
    else None
  }

  predicate ReadsClock(budget: LoopBudget, acc: Accumulators) {
    acc.iterations < budget.maxIterations && acc.usage.Total() < budget.maxTotalTokens
  }

  function AfterCheck(env: Env, s: LoopState): LoopState {
    if ReadsClock(env.budget, s.acc) then s.(meter := s.meter.(readings := s.meter.readings + 1)) else s
  }

  function Budget(env: Env, f: Frame, s: LoopState): Option<Note> {
    CheckBudget(env.budget, s.acc, env.clock(s.meter.readings) - f.startTime)
  }

  function RequestOf(env: Env, f: Frame, messages: seq<ChatMessage>): LlmRequest {
    LlmRequest(f.system, messages, env.tools)
  }

  /** The state once the model has been asked. */
  function AfterAsk(env: Env, f: Frame, s: LoopState): LoopState {
    var request := RequestOf(env, f, s.messages);
    var call := CallLlm(env, request, s.meter.attempts);
    s.(acc := s.acc.(iterations := s.acc.iterations + 1),
       meter := s.meter.(asks := s.meter.asks + 1, attempts := s.meter.attempts + call.attempts),
       trace := s.trace + [Asked(request, call.attempts)])
  }

  function AfterReply(s: LoopState, r: LlmResponse): LoopState {
    var usage := Usage(s.acc.usage.inputTokens + r.usage.inputTokens, s.acc.usage.outputTokens + r.usage.outputTokens);
    s.(acc := s.acc.(usage := usage),
       trace := s.trace + [Iteration(s.acc.iterations, r.stopReason, |r.toolCalls|, r.usage)])
  }

  /** Appends the assistant message, then answers its read-only calls and after them its mutating ones. */
  function AnswerSafe(env: Env, s: LoopState, r: LlmResponse): Answering {
    var registry := env.host.registry;
    var asked := s.(messages := s.messages + [AssistantMessage(r.content, r.toolCalls)]);
    var read := AnswerJobs(env, ReadOnly, RunAll(ReadOnlyCalls(registry, r.toolCalls)), asked).s;
    AnswerJobs(env, Mutating, RunAll(MutatingCalls(registry, r.toolCalls)), read)
  }

  /** The batch of one assistant message: the safe calls run, then the loop pauses if any call needs approval. */
  function Batch(env: Env, f: Frame, s: LoopState, r: LlmResponse): Step {
    var done := AnswerSafe(env, s, r);
    if done.error.Some? then Stop(Aborted(done.s, done.error.value))
    else
      var awaiting := ApprovalCalls(env.host.registry, r.toolCalls);
      if awaiting != [] then Stop(Pause(f, done.s, awaiting)) else Continue(done.s)
  }

  function Iterate(env: Env, f: Frame, s: LoopState): Step {
    var stop := Budget(env, f, s);
    var checked := AfterCheck(env, s);
    if stop.Some? then Stop(Complete(f, checked, stop.value, MaxIterations))
    else
      var asked := AfterAsk(env, f, checked);
      match CallLlm(env, RequestOf(env, f, checked.messages), checked.meter.attempts).outcome
      case Fails(error) => Stop(Aborted(asked, error))
      case Reply(r) =>
        var replied := AfterReply(asked, r);
        if r.stopReason != ToolUse || r.toolCalls == [] then Stop(Complete(f, replied, Said(r.content), r.stopReason))
        else Batch(env, f, replied, r)
  }

  lemma IterateAdvances(env: Env, f: Frame, s: LoopState)
    ensures Iterate(env, f, s).Continue? ==> Iterate(env, f, s).s.acc.iterations == s.acc.iterations + 1
  {
    var checked := AfterCheck(env, s);
    match CallLlm(env, RequestOf(env, f, checked.messages), checked.meter.attempts).outcome
    case Fails(_) =>
    case Reply(r) =>
      var registry := env.host.registry;
      var replied := AfterReply(AfterAsk(env, f, checked), r);
      var asked := replied.(messages := replied.messages + [AssistantMessage(r.content, r.toolCalls)]);
      var readJobs := RunAll(ReadOnlyCalls(registry, r.toolCalls));
      var writeJobs := RunAll(MutatingCalls(registry, r.toolCalls));
      AnswerJobsKeeps(env, ReadOnly, readJobs, asked);
      AnswerJobsKeeps(env, Mutating, writeJobs, AnswerJobs(env, ReadOnly, readJobs, asked).s);
  }

  /** Answering calls touches neither the iteration count, the usage nor the meters. */
  lemma {:induction false} AnswerJobsKeeps(env: Env, mode: Mode, jobs: seq<Job>, s: LoopState)
    ensures var r := AnswerJobs(env, mode, jobs, s).s;
      r.acc.iterations == s.acc.iterations && r.acc.usage == s.acc.usage && r.meter == s.meter
    decreases |jobs|
  {
    if jobs != [] {
      var call := jobs[0].call;
      var events := EventsOf(mode, jobs[0], s.acc.iterations);
      var e := Execute(env.host, s.store, call.name, call.arguments);
      if !jobs[0].run {
        AnswerJobsKeeps(env, mode, jobs[1..], Record(env, s, call, DENIED, s.store, events));
      } else {
        match e.settled
        case Fulfilled(result) =>
          AnswerJobsKeeps(env, mode, jobs[1..], Record(env, s, call, result, e.store, events));
        case Rejected(_) =>
          AnswerJobsKeeps(env, mode, jobs[1..], Record(env, s, call, UNEXPECTED, e.store, events));
      }
    }
  }

  function RunLoop(env: Env, f: Frame, s: LoopState): Ending
    decreases env.budget.maxIterations - s.acc.iterations
  {
    if s.acc.iterations >= env.budget.maxIterations then Complete(f, s, IterationsReached, MaxIterations)
    else
      IterateAdvances(env, f, s);
      match Iterate(env, f, s)
      case Stop(ending) => ending
      case Continue(s') => RunLoop(env, f, s')
  }

  /** Reads the start time and loops. */
  function StartLoop(env: Env, conversationId: string, system: string, s: LoopState): Ending {
    var f := Frame(conversationId, system, env.clock(s.meter.readings));
    RunLoop(env, f, s.(meter := s.meter.(readings := s.meter.readings + 1)))
  }

  // ------------------------------------------------- requests on a session

  /** The persisted part of one conversation, and the world around it. */
  datatype Session = Session(
    conversationId: string,
    history: seq<ChatMessage>,
    status: ConversationStatus,
    store: Store,
    meter: Meter,
    trace: seq<Event>)

  datatype BadRequest =
    | NoPendingCalls
    | DuplicateDecision(toolCallId: string)
    | UnknownToolCall(toolCallId: string)
    | NotInApprovalFlow(name: string)

  datatype Served = Responded(response: ChatResponse) | Refused(reason: BadRequest) | Crashed(error: string)

  datatype Decision = Decision(toolCallId: string, approved: bool)

  datatype Request =
    | Chat(text: string, system: Option<string>)
    | Approve(decisions: seq<Decision>)

  function Fresh(iterations: int): Accumulators {
    Accumulators([], [], Usage(0, 0), iterations)
  }

  /** Only a returned request persists its history and status; effects on the world stay either way. */
  function Persist(session: Session, ending: Ending): (Session, Served) {
    var s := ending.s;
    var world := session.(store := s.store, meter := s.meter, trace := s.trace);
    match ending
    case Ended(_, status, response) => (world.(history := s.messages, status := status), Responded(response))
    case Aborted(_, error) => (world, Crashed(error))
  }

  function ChatStart(session: Session, text: string): LoopState {
    LoopState(session.history + [UserMessage(text)], Fresh(0), session.store, session.meter, session.trace)
  }

  function ChatEnding(env: Env, session: Session, text: string, system: Option<string>): Ending {
    StartLoop(env, session.conversationId, system.GetOr(env.defaultSystem), ChatStart(session, text))
  }

  datatype Collected = Decisions(byId: map<string, bool>) | Bad(reason: BadRequest)

  predicate HasCall(calls: seq<ToolCall>, id: string) {
    exists i :: 0 <= i < |calls| && calls[i].id == id
  }

  /** Reads the decisions in order: no duplicates, only pending calls. */
  function Collect(pending: seq<ToolCall>, decisions: seq<Decision>, byId: map<string, bool>): Collected
    decreases |decisions|
  {
    if decisions == [] then Decisions(byId)
    else
      var d := decisions[0];
      if d.toolCallId in byId then Bad(DuplicateDecision(d.toolCallId))
      else if !HasCall(pending, d.toolCallId) then Bad(UnknownToolCall(d.toolCallId))
      else Collect(pending, decisions[1..], byId[d.toolCallId := d.approved])
  }

  /** The first pending call whose tool is unknown or not approval-needing. */
  function Undecidable(registry: Registry, pending: seq<ToolCall>): Option<BadRequest> {
    if pending == [] then None
    else if !NeedsApproval(registry, pending[0].name) then Some(NotInApprovalFlow(pending[0].name))
    else Undecidable(registry, pending[1..])
  }

  /** Every pending call becomes a job; without an approving decision it is denied. */
  function Effective(pending: seq<ToolCall>, byId: map<string, bool>): seq<Job> {
    if pending == [] then []
    else [Job(pending[0], pending[0].id in byId && byId[pending[0].id])] + Effective(pending[1..], byId)
  }

  datatype Checked = Jobs(jobs: seq<Job>) | Refusal(reason: BadRequest)

  /** All checks of an approval, in the order the source makes them. */
  function CheckApproval(registry: Registry, history: seq<ChatMessage>, decisions: seq<Decision>): Checked {
    var pending := Pending(history);
    if pending == [] then Refusal(NoPendingCalls)
    else
      match Collect(pending, decisions, map[])
      case Bad(reason) => Refusal(reason)
      case Decisions(byId) =>
        match Undecidable(registry, pending)
        case Some(reason) => Refusal(reason)
        case None => Jobs(Effective(pending, byId))
  }

  /** The paused turn already used one iteration. */
  function ApproveStart(session: Session): LoopState {
    LoopState(session.history, Fresh(1), session.store, session.meter, session.trace)
  }

  function ApproveEnding(env: Env, session: Session, jobs: seq<Job>): Ending {
    var done := AnswerJobs(env, Decided, jobs, ApproveStart(session));
    if done.error.Some? then Aborted(done.s, done.error.value)
    else StartLoop(env, session.conversationId, env.defaultSystem, done.s)
  }

  function Serve(env: Env, session: Session, request: Request): (Session, Served) {
    match request
    case Chat(text, system) => Persist(session, ChatEnding(env, session, text, system))
    case Approve(decisions) =>
      match CheckApproval(env.host.registry, session.history, decisions)
      case Refusal(reason) => (session, Refused(reason))
      case Jobs(jobs) => Persist(session, ApproveEnding(env, session, jobs))
  }

  /** A run: the requests served one after the other. */
  function Run(env: Env, session: Session, requests: seq<Request>): Session
    decreases |requests|
  {
    if requests == [] then session
    else Run(env, Serve(env, session, requests[0]).0, requests[1..])
  }
}
