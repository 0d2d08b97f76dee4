/**
 The read-only bucket runs concurrently. Whatever order its calls complete in,
 what is collected, appended and stored is what running them one by one gives.
 */
module Confluence {
  import opened Prelude
  import opened LlmTypes
  import opened Tools
  import opened AgentLoop
  import opened AgentShape

  /** The read-only calls run in completion order; each promise settles at the index of its call. */
  function Settle(host: Host, store: Tickets.Store, calls: seq<ToolCall>, order: seq<nat>)
    : (map<nat, Settled>, Tickets.Store)
    requires forall j :: 0 <= j < |order| ==> order[j] < |calls|
  {
    if order == [] then (map[], store)
    else
      var (settled, before) := Settle(host, store, calls, order[..|order| - 1]);
      var k := order[|order| - 1];
      var e := Execute(host, before, calls[k].name, calls[k].arguments);
      (settled[k := e.settled], e.store)
  }

  lemma {:induction false} SettleKeys(host: Host, store: Tickets.Store, calls: seq<ToolCall>, order: seq<nat>)
    requires forall j :: 0 <= j < |order| ==> order[j] < |calls|
    ensures forall k :: k in Settle(host, store, calls, order).0 <==> k in order
  {
    if order != [] {
      SettleKeys(host, store, calls, order[..|order| - 1]);
      assert order == order[..|order| - 1] + [order[|order| - 1]];
    }
  }

  ghost predicate AllReadOnly(registry: Registry, calls: seq<ToolCall>) {
    forall c :: c in calls ==> IsReadOnly(registry, c.name)
  }

  lemma {:induction false} SettledAlone(host: Host, store: Tickets.Store, calls: seq<ToolCall>, order: seq<nat>)
    requires UnflaggedToolsOnlyRead(host.registry) && AllReadOnly(host.registry, calls)
    requires forall j :: 0 <= j < |order| ==> order[j] < |calls|
    ensures var (settled, after) := Settle(host, store, calls, order);
      && after == store
      && (forall k :: k in settled <==> k in order)
      && (forall k :: k in settled ==> settled[k] == Execute(host, store, calls[k].name, calls[k].arguments).settled)
  {
    if order != [] {
      var k := order[|order| - 1];
      SettledAlone(host, store, calls, order[..|order| - 1]);
      assert calls[k] in calls;
      ReadOnlyExecution(host, store, calls[k].name, calls[k].arguments);
      assert order == order[..|order| - 1] + [k];
    }
  }

  /** Collects the settled promises by index, from `i` on. */
  function Gather(env: Env, calls: seq<ToolCall>, settled: map<nat, Settled>, i: nat, s: LoopState): LoopState
    requires i <= |calls| && forall k: nat :: k < |calls| ==> k in settled
    decreases |calls| - i
  {
    if i == |calls| then s
    else Gather(env, calls, settled, i + 1,
                Record(env, s, calls[i], SettledResult(settled[i]), s.store, [Ran(calls[i])]))
  }

  lemma {:induction false} GatherIsSequential(env: Env, calls: seq<ToolCall>, settled: map<nat, Settled>, i: nat,
                                              s: LoopState)
    requires i <= |calls| && forall k: nat :: k < |calls| ==> k in settled
    requires UnflaggedToolsOnlyRead(env.host.registry) && AllReadOnly(env.host.registry, calls)
    requires forall k: nat :: k < |calls| ==>
      settled[k] == Execute(env.host, s.store, calls[k].name, calls[k].arguments).settled
    ensures Gather(env, calls, settled, i, s) == AnswerJobs(env, ReadOnly, RunAll(calls[i..]), s).s
    decreases |calls| - i
  {
    if i < |calls| {
      var call := calls[i];
      assert call in calls;
      ReadOnlyExecution(env.host, s.store, call.name, call.arguments);
      var one := Record(env, s, call, SettledResult(settled[i]), s.store, [Ran(call)]);
      GatherIsSequential(env, calls, settled, i + 1, one);
      assert calls[i..] == [call] + calls[i + 1..];
      assert RunAll(calls[i..])[1..] == RunAll(calls[i + 1..]);
      assert EventsOf(ReadOnly, Job(call, true), s.acc.iterations) == [Ran(call)];
    }
  }

  /** Confluence: for every completion order of the concurrent read-only calls, the
      messages, accumulators and store are those of running them in list order. */
  lemma EveryOrderIsSequential(env: Env, calls: seq<ToolCall>, order: seq<nat>, s: LoopState)
    requires UnflaggedToolsOnlyRead(env.host.registry) && AllReadOnly(env.host.registry, calls)
    requires IsPermutation(order, |calls|)
    ensures forall j :: 0 <= j < |order| ==> order[j] < |calls|
    ensures var (settled, after) := Settle(env.host, s.store, calls, order);
      && (forall k: nat :: k < |calls| ==> k in settled)
      && Gather(env, calls, settled, 0, s.(store := after)) == AnswerJobs(env, ReadOnly, RunAll(calls), s).s
  {
    SettledAlone(env.host, s.store, calls, order);
    var settled := Settle(env.host, s.store, calls, order).0;
    GatherIsSequential(env, calls, settled, 0, s);
    assert calls[0..] == calls;
  }
}
