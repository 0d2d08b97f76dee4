/**
 What one batch of tool calls leaves in the history and the accumulators,
 in closed form: answering is a sequential replay over the ticket store.
 */
module AgentShape {
  import opened Prelude
  import opened LlmTypes
  import opened TenantScope
  import opened Tickets
  import opened Tools
  import opened AgentLoop

  datatype Replayed = Replayed(results: seq<ToolResult>, store: Store)

  function SettledResult(settled: Settled): ToolResult {
    match settled
    case Fulfilled(result) => result
    case Rejected(_) => UNEXPECTED
  }

  /** The audit reference: run the calls one after the other; denied calls do nothing. */
  function Replay(host: Host, store: Store, jobs: seq<Job>): (r: Replayed)
    ensures |r.results| == |jobs|
    decreases |jobs|
  {
    if jobs == [] then Replayed([], store)
    else if !jobs[0].run then
      var rest := Replay(host, store, jobs[1..]);
      Replayed([DENIED] + rest.results, rest.store)
    else
      var e := Execute(host, store, jobs[0].call.name, jobs[0].call.arguments);
      var rest := Replay(host, e.store, jobs[1..]);
      Replayed([SettledResult(e.settled)] + rest.results, rest.store)
  }

  /** The jobs that run, and their share of the results of all jobs. */
  function Running(jobs: seq<Job>): seq<Job> {
    if jobs == [] then [] else (if jobs[0].run then [jobs[0]] else []) + Running(jobs[1..])
  }

  function RunningResults(jobs: seq<Job>, results: seq<ToolResult>): seq<ToolResult>
    requires |jobs| == |results|
  {
    if jobs == [] then [] else (if jobs[0].run then [results[0]] else []) + RunningResults(jobs[1..], results[1..])
  }

  /** Denied jobs are no-ops: without them the tickets and the results of all other
      jobs are the same, and each of them is answered as denied. */
  lemma {:induction false} DeniedAreNoOps(host: Host, store: Store, jobs: seq<Job>)
    ensures var all, ran := Replay(host, store, jobs), Replay(host, store, Running(jobs));
      && all.store == ran.store && RunningResults(jobs, all.results) == ran.results
      && forall i :: 0 <= i < |jobs| && !jobs[i].run ==> all.results[i] == DENIED
    decreases |jobs|
  {
    if jobs != [] {
      var rest := jobs[1..];
      var e := Execute(host, store, jobs[0].call.name, jobs[0].call.arguments);
      DeniedAreNoOps(host, if jobs[0].run then e.store else store, rest);
      assert [] + Running(rest) == Running(rest) && ([jobs[0]] + Running(rest))[1..] == Running(rest);
      var later := Replay(host, if jobs[0].run then e.store else store, rest).results;
      assert Replay(host, store, jobs).results[1..] == later;
    }
  }

  function JobCalls(jobs: seq<Job>): seq<ToolCall> {
    if jobs == [] then [] else [jobs[0].call] + JobCalls(jobs[1..])
  }

  function Answers(host: Host, jobs: seq<Job>, results: seq<ToolResult>): seq<ChatMessage>
    requires |jobs| == |results|
  {
    if jobs == [] then []
    else [AnswerTo(host, jobs[0].call, results[0])] + Answers(host, jobs[1..], results[1..])
  }

  function Records(jobs: seq<Job>, results: seq<ToolResult>): seq<ToolCallResult>
    requires |jobs| == |results|
  {
    if jobs == [] then [] else [RecordOf(jobs[0].call, results[0])] + Records(jobs[1..], results[1..])
  }

  function JobEvents(mode: Mode, jobs: seq<Job>, iteration: int): seq<Event> {
    if jobs == [] then [] else EventsOf(mode, jobs[0], iteration) + JobEvents(mode, jobs[1..], iteration)
  }

  /** The state after answering `jobs` with `replayed`. */
  function Absorbed(env: Env, mode: Mode, jobs: seq<Job>, replayed: Replayed, s: LoopState): LoopState
    requires |jobs| == |replayed.results|
  {
    s.(acc := s.acc.(toolCalls := s.acc.toolCalls + JobCalls(jobs),
                     toolResults := s.acc.toolResults + Records(jobs, replayed.results)),
       messages := s.messages + Answers(env.host, jobs, replayed.results),
       store := replayed.store,
       trace := s.trace + JobEvents(mode, jobs, s.acc.iterations))
  }

  lemma AbsorbedHead(env: Env, mode: Mode, jobs: seq<Job>, replayed: Replayed, s: LoopState, store: Store)
    requires |jobs| == |replayed.results| && jobs != []
    ensures var events := EventsOf(mode, jobs[0], s.acc.iterations);
      var one := Record(env, s, jobs[0].call, replayed.results[0], store, events);
      Absorbed(env, mode, jobs, replayed, s)
        == Absorbed(env, mode, jobs[1..], replayed.(results := replayed.results[1..]), one)
  {
    var rest := jobs[1..];
    var results := replayed.results[1..];
    assert s.acc.toolCalls + JobCalls(jobs) == s.acc.toolCalls + [jobs[0].call] + JobCalls(rest);
    assert s.acc.toolResults + Records(jobs, replayed.results)
        == s.acc.toolResults + [RecordOf(jobs[0].call, replayed.results[0])] + Records(rest, results);
    assert s.messages + Answers(env.host, jobs, replayed.results)
        == s.messages + [AnswerTo(env.host, jobs[0].call, replayed.results[0])] + Answers(env.host, rest, results);
    assert s.trace + JobEvents(mode, jobs, s.acc.iterations)
        == s.trace + EventsOf(mode, jobs[0], s.acc.iterations) + JobEvents(mode, rest, s.acc.iterations);
  }

  /** Answering calls without a stopping rejection is exactly their replay. */
  lemma {:induction false} AnswerJobsIsReplay(env: Env, mode: Mode, jobs: seq<Job>, s: LoopState)
    requires AnswerJobs(env, mode, jobs, s).error.None?
    ensures AnswerJobs(env, mode, jobs, s).s == Absorbed(env, mode, jobs, Replay(env.host, s.store, jobs), s)
    decreases |jobs|
  {
    var replayed := Replay(env.host, s.store, jobs);
    if jobs == [] {
      assert s.acc.toolCalls + [] == s.acc.toolCalls && s.acc.toolResults + [] == s.acc.toolResults;
      assert s.messages + [] == s.messages && s.trace + [] == s.trace;
    } else {
      var call := jobs[0].call;
      var e := Execute(env.host, s.store, call.name, call.arguments);
      var store := if jobs[0].run then e.store else s.store;
      var one := Record(env, s, call, replayed.results[0], store, EventsOf(mode, jobs[0], s.acc.iterations));
      assert Replay(env.host, store, jobs[1..]) == replayed.(results := replayed.results[1..]);
      AbsorbedHead(env, mode, jobs, replayed, s, store);
      AnswerJobsIsReplay(env, mode, jobs[1..], one);
    }
  }

  lemma {:induction false} ReadOnlyNeverStops(env: Env, jobs: seq<Job>, s: LoopState)
    ensures AnswerJobs(env, ReadOnly, jobs, s).error.None?
    decreases |jobs|
  {
    if jobs != [] {
      var call := jobs[0].call;
      var events := EventsOf(ReadOnly, jobs[0], s.acc.iterations);
      var e := Execute(env.host, s.store, call.name, call.arguments);
      if !jobs[0].run {
        ReadOnlyNeverStops(env, jobs[1..], Record(env, s, call, DENIED, s.store, events));
      } else {
        ReadOnlyNeverStops(env, jobs[1..], Record(env, s, call, SettledResult(e.settled), e.store, events));
      }
    }
  }

  /** Answering stopped at the i-th job: the earlier ones are answered as their replay
      says, and the promise of this one rejected with the error. */
  ghost predicate StoppedAt(env: Env, mode: Mode, jobs: seq<Job>, s: LoopState, i: nat) {
    && i < |jobs| && jobs[i].run
    && var r := AnswerJobs(env, mode, jobs, s);
      var before := Replay(env.host, s.store, jobs[..i]);
      var e := Execute(env.host, before.store, jobs[i].call.name, jobs[i].call.arguments);
      var done := Absorbed(env, mode, jobs[..i], before, s);
      && r.error.Some? && e.settled == Rejected(r.error.value)
      && r.s == done.(acc := done.acc.(toolCalls := done.acc.toolCalls + [jobs[i].call]),
                      trace := done.trace + [Ran(jobs[i].call)])
  }

  /** Where answering stops: never in the read-only bucket, and otherwise at a job whose
      promise rejects, after all earlier ones. */
  lemma {:induction false} StopsExactly(env: Env, mode: Mode, jobs: seq<Job>, s: LoopState)
    requires AnswerJobs(env, mode, jobs, s).error.Some?
    ensures !mode.ReadOnly? && exists i: nat :: StoppedAt(env, mode, jobs, s, i)
    decreases |jobs|
  {
    var call := jobs[0].call;
    var e := Execute(env.host, s.store, call.name, call.arguments);
    if mode.ReadOnly? {
      ReadOnlyNeverStops(env, jobs, s);
    } else if jobs[0].run && e.settled.Rejected? {
      assert jobs[..0] == [];
      assert Absorbed(env, mode, [], Replayed([], s.store), s) == s by {
        assert s.acc.toolCalls + [] == s.acc.toolCalls && s.acc.toolResults + [] == s.acc.toolResults;
        assert s.messages + [] == s.messages && s.trace + [] == s.trace;
      }
      assert StoppedAt(env, mode, jobs, s, 0);
    } else {
      var result := if jobs[0].run then e.settled.result else DENIED;
      var store := if jobs[0].run then e.store else s.store;
      var one := Record(env, s, call, result, store, EventsOf(mode, jobs[0], s.acc.iterations));
      StopsExactly(env, mode, jobs[1..], one);
      var i: nat :| StoppedAt(env, mode, jobs[1..], one, i);
      StoppedBehind(env, mode, jobs, s, one, store, result, i);
    }
  }

  lemma StoppedBehind(env: Env, mode: Mode, jobs: seq<Job>, s: LoopState, one: LoopState, store: Store,
                      result: ToolResult, i: nat)
    requires jobs != [] && StoppedAt(env, mode, jobs[1..], one, i)
    requires one == Record(env, s, jobs[0].call, result, store, EventsOf(mode, jobs[0], s.acc.iterations))
    requires AnswerJobs(env, mode, jobs, s) == AnswerJobs(env, mode, jobs[1..], one)
    requires Replay(env.host, s.store, [jobs[0]] + jobs[1..][..i])
          == (var rest := Replay(env.host, store, jobs[1..][..i]); Replayed([result] + rest.results, rest.store))
    ensures StoppedAt(env, mode, jobs, s, i + 1)
  {
    hide AnswerJobs, Absorbed, Replay, Execute, RecordOf, AnswerTo, EventsOf;
    var first := jobs[..i + 1];
    assert [jobs[0]] + jobs[1..][..i] == first && first[1..] == jobs[1..][..i];
    var before := Replay(env.host, s.store, first);
    AbsorbedHead(env, mode, first, before, s, store);
    var rest := Replay(env.host, store, first[1..]);
    assert before.results[1..] == rest.results && before.results[0] == result && first[0] == jobs[0];
    assert before.(results := before.results[1..]) == rest;
    assert Absorbed(env, mode, first, before, s) == Absorbed(env, mode, first[1..], rest, one);
    assert jobs[i + 1] == jobs[1..][i];
  }

  lemma {:induction false} ReplayConcat(host: Host, store: Store, a: seq<Job>, b: seq<Job>)
    ensures var first := Replay(host, store, a);
      var second := Replay(host, first.store, b);
      Replay(host, store, a + b) == Replayed(first.results + second.results, second.store)
    decreases |a|
  {
    if a == [] {
      assert a + b == b;
    } else {
      HeadOfSum(a, b);
      var e := Execute(host, store, a[0].call.name, a[0].call.arguments);
      var next := if a[0].run then e.store else store;
      var result := if a[0].run then SettledResult(e.settled) else DENIED;
      ReplayConcat(host, next, a[1..], b);
      var rest := Replay(host, next, a[1..]);
      assert Replay(host, store, a) == Replayed([result] + rest.results, rest.store);
      Associative([result], rest.results, Replay(host, rest.store, b).results);
    }
  }

  lemma {:induction false} AbsorbedParts(host: Host, a: seq<Job>, b: seq<Job>, ra: seq<ToolResult>, rb: seq<ToolResult>)
    requires |a| == |ra| && |b| == |rb|
    ensures JobCalls(a + b) == JobCalls(a) + JobCalls(b)
    ensures Answers(host, a + b, ra + rb) == Answers(host, a, ra) + Answers(host, b, rb)
    ensures Records(a + b, ra + rb) == Records(a, ra) + Records(b, rb)
    decreases |a|
  {
    if a == [] {
      assert a + b == b && ra + rb == rb;
    } else {
      HeadOfSum(a, b);
      HeadOfSum(ra, rb);
      AbsorbedParts(host, a[1..], b, ra[1..], rb);
      Associative([a[0].call], JobCalls(a[1..]), JobCalls(b));
      Associative([AnswerTo(host, a[0].call, ra[0])], Answers(host, a[1..], ra[1..]), Answers(host, b, rb));
      Associative([RecordOf(a[0].call, ra[0])], Records(a[1..], ra[1..]), Records(b, rb));
    }
  }

  lemma {:induction false} AnswersFacts(host: Host, jobs: seq<Job>, results: seq<ToolResult>)
    requires |jobs| == |results|
    ensures Calls(Answers(host, jobs, results)) == []
    ensures Answered(Answers(host, jobs, results)) == Ids(JobCalls(jobs))
    ensures |Answers(host, jobs, results)| == |jobs| == |JobCalls(jobs)|
    decreases |jobs|
  {
    if jobs != [] {
      AnswersFacts(host, jobs[1..], results[1..]);
      var head := AnswerTo(host, jobs[0].call, results[0]);
      var rest := Answers(host, jobs[1..], results[1..]);
      AnsweredConcat([head], rest);
      AnsweredOne(head);
      IdsConcat([jobs[0].call], JobCalls(jobs[1..]));
      assert Ids([jobs[0].call]) == {jobs[0].call.id};
    }
  }

  lemma AnsweredOne(m: ChatMessage)
    requires m.role == ToolRole && m.toolCallId.Some?
    ensures Answered([m]) == {m.toolCallId.value}
  {
    assert m in [m];
  }

  // -------------------------------------------------------- the partition

  /** The calls a batch answers, in the order it answers them. */
  function SafeCalls(registry: Registry, calls: seq<ToolCall>): seq<ToolCall> {
    ReadOnlyCalls(registry, calls) + MutatingCalls(registry, calls)
  }

  lemma {:induction false} PartitionMembers(registry: Registry, calls: seq<ToolCall>)
    ensures forall c :: c in ReadOnlyCalls(registry, calls) <==> c in calls && IsReadOnly(registry, c.name)
    ensures forall c :: c in MutatingCalls(registry, calls) <==> c in calls && IsMutating(registry, c.name)
    ensures forall c :: c in ApprovalCalls(registry, calls) <==> c in calls && NeedsApproval(registry, c.name)
    ensures |ReadOnlyCalls(registry, calls)| + |MutatingCalls(registry, calls)| + |ApprovalCalls(registry, calls)|
        == |calls|
  {
    if calls != [] {
      PartitionMembers(registry, calls[1..]);
      assert forall c :: c in calls <==> c == calls[0] || c in calls[1..];
    }
  }

  /** One more call joins exactly one of the three. */
  lemma {:induction false} PartitionNext(registry: Registry, calls: seq<ToolCall>, call: ToolCall)
    ensures ReadOnlyCalls(registry, calls + [call])
         == ReadOnlyCalls(registry, calls) + if IsReadOnly(registry, call.name) then [call] else []
    ensures MutatingCalls(registry, calls + [call])
         == MutatingCalls(registry, calls) + if IsMutating(registry, call.name) then [call] else []
    ensures ApprovalCalls(registry, calls + [call])
         == ApprovalCalls(registry, calls) + if NeedsApproval(registry, call.name) then [call] else []
  {
    if calls == [] {
      assert [] + [call] == [call] && [call][1..] == [];
    } else {
      var first, rest := calls[0], calls[1..];
      HeadOfSum(calls, [call]);
      PartitionNext(registry, rest, call);
      Associative(if IsReadOnly(registry, first.name) then [first] else [], ReadOnlyCalls(registry, rest),
                  if IsReadOnly(registry, call.name) then [call] else []);
      Associative(if IsMutating(registry, first.name) then [first] else [], MutatingCalls(registry, rest),
                  if IsMutating(registry, call.name) then [call] else []);
      Associative(if NeedsApproval(registry, first.name) then [first] else [], ApprovalCalls(registry, rest),
                  if NeedsApproval(registry, call.name) then [call] else []);
    }
  }

  lemma SafeMembers(registry: Registry, calls: seq<ToolCall>)
    ensures forall c :: c in SafeCalls(registry, calls) <==> c in calls && !NeedsApproval(registry, c.name)
  {
    PartitionMembers(registry, calls);
  }

  lemma {:induction false} RunAllCalls(a: seq<ToolCall>)
    ensures JobCalls(RunAll(a)) == a
    ensures forall j :: j in RunAll(a) ==> j.run
    ensures |RunAll(a)| == |a|
  {
    if a != [] {
      RunAllCalls(a[1..]);
    }
  }

  lemma {:induction false} RunAllConcat(a: seq<ToolCall>, b: seq<ToolCall>)
    ensures RunAll(a + b) == RunAll(a) + RunAll(b)
  {
    if a == [] {
      assert a + b == b;
    } else {
      assert (a + b)[1..] == a[1..] + b;
      RunAllConcat(a[1..], b);
    }
  }

  // ------------------------------------------------------------ one batch

  function SafeJobs(env: Env, r: LlmResponse): seq<Job> {
    RunAll(SafeCalls(env.host.registry, r.toolCalls))
  }

  /** What a batch appends to the history: the assistant message, then the answers to its safe calls. */
  function Block(env: Env, store: Store, r: LlmResponse): seq<ChatMessage> {
    [AssistantMessage(r.content, r.toolCalls)]
    + Answers(env.host, SafeJobs(env, r), Replay(env.host, store, SafeJobs(env, r)).results)
  }

  function StateOf(step: Step): LoopState {
    match step
    case Stop(ending) => ending.s
    case Continue(s) => s
  }

  predicate Survives(step: Step) {
    step.Continue? || step.ending.Ended?
  }

  /** The state once the assistant message is appended. */
  function Replied(s: LoopState, r: LlmResponse): LoopState {
    s.(messages := s.messages + [AssistantMessage(r.content, r.toolCalls)])
  }

  lemma AbsorbedTwice(env: Env, a: seq<Job>, b: seq<Job>, ra: Replayed, rb: Replayed, s: LoopState)
    requires |a| == |ra.results| && |b| == |rb.results|
    ensures Absorbed(env, Mutating, b, rb, Absorbed(env, ReadOnly, a, ra, s))
         == Absorbed(env, ReadOnly, a + b, Replayed(ra.results + rb.results, rb.store), s)
  {
    AbsorbedParts(env.host, a, b, ra.results, rb.results);
    JobEventsConcat(a, b, s.acc.iterations);
    Associative(s.acc.toolCalls, JobCalls(a), JobCalls(b));
    Associative(s.acc.toolResults, Records(a, ra.results), Records(b, rb.results));
    Associative(s.messages, Answers(env.host, a, ra.results), Answers(env.host, b, rb.results));
    Associative(s.trace, JobEvents(ReadOnly, a, s.acc.iterations), JobEvents(Mutating, b, s.acc.iterations));
  }

  /** The safe calls of a batch, if none throws: exactly their replay is accumulated. */
  lemma SafeIsReplay(env: Env, s: LoopState, r: LlmResponse)
    requires AnswerSafe(env, s, r).error.None?
    ensures AnswerSafe(env, s, r).s
         == Absorbed(env, ReadOnly, SafeJobs(env, r), Replay(env.host, s.store, SafeJobs(env, r)), Replied(s, r))
  {
    var registry := env.host.registry;
    var ro, mu := RunAll(ReadOnlyCalls(registry, r.toolCalls)), RunAll(MutatingCalls(registry, r.toolCalls));
    var read := AnswerJobs(env, ReadOnly, ro, Replied(s, r)).s;
    ReadOnlyNeverStops(env, ro, Replied(s, r));
    AnswerJobsIsReplay(env, ReadOnly, ro, Replied(s, r));
    AnswerJobsIsReplay(env, Mutating, mu, read);
    RunAllConcat(ReadOnlyCalls(registry, r.toolCalls), MutatingCalls(registry, r.toolCalls));
    ReplayConcat(env.host, s.store, ro, mu);
    AbsorbedTwice(env, ro, mu, Replay(env.host, s.store, ro), Replay(env.host, read.store, mu), Replied(s, r));
  }

  /** The same, part by part: the block is appended, the safe calls and their results are accumulated. */
  lemma SafeShape(env: Env, s: LoopState, r: LlmResponse)
    requires AnswerSafe(env, s, r).error.None?
    ensures var s' := AnswerSafe(env, s, r).s;
      var jobs := SafeJobs(env, r);
      var replayed := Replay(env.host, s.store, jobs);
      && s'.messages == s.messages + Block(env, s.store, r)
      && s'.acc == s.acc.(toolCalls := s.acc.toolCalls + SafeCalls(env.host.registry, r.toolCalls),
                          toolResults := s.acc.toolResults + Records(jobs, replayed.results))
      && s'.store == replayed.store
      && s'.meter == s.meter
      && s'.trace == s.trace + JobEvents(ReadOnly, jobs, s.acc.iterations)
  {
    SafeIsReplay(env, s, r);
    RunAllCalls(SafeCalls(env.host.registry, r.toolCalls));
    var answers := Answers(env.host, SafeJobs(env, r), Replay(env.host, s.store, SafeJobs(env, r)).results);
    assert s.messages + ([AssistantMessage(r.content, r.toolCalls)] + answers)
        == s.messages + [AssistantMessage(r.content, r.toolCalls)] + answers;
  }

  lemma {:induction false} JobEventsConcat(a: seq<Job>, b: seq<Job>, iteration: int)
    ensures JobEvents(ReadOnly, a + b, iteration) == JobEvents(ReadOnly, a, iteration)
        + JobEvents(Mutating, b, iteration)
  {
    if a == [] {
      assert a + b == b;
      if b != [] {
        assert [] + b[1..] == b[1..];
        JobEventsConcat([], b[1..], iteration);
      }
    } else {
      assert (a + b)[1..] == a[1..] + b;
      JobEventsConcat(a[1..], b, iteration);
    }
  }

  /** A batch that does not throw ends in the state its safe calls leave, and
      pauses exactly when some call needs approval, for exactly those calls. */
  lemma BatchShape(env: Env, f: Frame, s: LoopState, r: LlmResponse)
    requires Survives(Batch(env, f, s, r))
    ensures AnswerSafe(env, s, r).error.None?
    ensures var step := Batch(env, f, s, r);
      var done := AnswerSafe(env, s, r).s;
      var awaiting := ApprovalCalls(env.host.registry, r.toolCalls);
      && (step.Continue? <==> awaiting == [])
      && (step.Continue? ==> step.s == done)
      && (step.Stop? ==>
            && step.ending.status == PAUSED
            && step.ending.s == done.(trace := done.trace + [AwaitingApproval(awaiting, done.acc.iterations)])
            && step.ending.response.awaitingApproval == Some(awaiting)
            && step.ending.response.toolCalls == done.acc.toolCalls + awaiting
            && step.ending.response.toolResults == done.acc.toolResults)
  {
  }

  lemma BlockFacts(env: Env, store: Store, r: LlmResponse)
    ensures Calls(Block(env, store, r)) == r.toolCalls
    ensures Answered(Block(env, store, r)) == Ids(SafeCalls(env.host.registry, r.toolCalls))
  {
    var jobs := SafeJobs(env, r);
    var results := Replay(env.host, store, jobs).results;
    RunAllCalls(SafeCalls(env.host.registry, r.toolCalls));
    AnswersFacts(env.host, jobs, results);
    var head := AssistantMessage(r.content, r.toolCalls);
    CallsConcat([head], Answers(env.host, jobs, results));
    AnsweredConcat([head], Answers(env.host, jobs, results));
    assert Answered([head]) == {};
    assert Calls([head]) == CallsOf(head) + Calls([]);
  }

  // -------------------------------------------------------- one iteration

  function Asking(env: Env, f: Frame, s: LoopState): Attempted {
    CallLlm(env, RequestOf(env, f, s.messages), s.meter.attempts)
  }

  /** Whether an iteration reaches a batch of tool calls. */
  predicate HasBatch(env: Env, f: Frame, s: LoopState) {
    && Budget(env, f, s).None?
    && var o := Asking(env, f, s).outcome;
       o.Reply? && o.response.stopReason == ToolUse && o.response.toolCalls != []
  }

  function BatchReply(env: Env, f: Frame, s: LoopState): LlmResponse
    requires HasBatch(env, f, s)
  {
    Asking(env, f, s).outcome.response
  }

  /** The state in which the batch of an iteration starts. */
  function BatchStart(env: Env, f: Frame, s: LoopState): LoopState
    requires HasBatch(env, f, s)
  {
    AfterReply(AfterAsk(env, f, AfterCheck(env, s)), BatchReply(env, f, s))
  }

  lemma IterateCases(env: Env, f: Frame, s: LoopState)
    ensures var step := Iterate(env, f, s);
      if HasBatch(env, f, s) then
        var s1 := BatchStart(env, f, s);
        && step == Batch(env, f, s1, BatchReply(env, f, s))
        && s1.messages == s.messages && s1.store == s.store
        && s1.acc.toolCalls == s.acc.toolCalls && s1.acc.toolResults == s.acc.toolResults
      else
        && step.Stop?
        && var e := step.ending;
           && e.s.messages == s.messages && e.s.store == s.store
           && e.s.acc.toolCalls == s.acc.toolCalls && e.s.acc.toolResults == s.acc.toolResults
           && (e.Ended? ==>
                 && e.status == COMPLETED && e.response.awaitingApproval.None?
                 && e.response.toolCalls == e.s.acc.toolCalls && e.response.toolResults == e.s.acc.toolResults)
  {
  }

  lemma {:induction false} ReplyComesFromModel(env: Env, request: LlmRequest, used: nat, attempt: nat,
                                               lastError: string)
    ensures var a := AttemptFrom(env, request, used, attempt, lastError);
      a.outcome.Reply? ==> exists n :: env.llm(n, request) == a.outcome
    decreases env.maxRetries + 1 - attempt
  {
    if attempt <= env.maxRetries {
      match env.llm(used, request)
      case Reply(_) =>
      case Fails(error) => ReplyComesFromModel(env, request, used + 1, attempt + 1, error);
    }
  }
}
