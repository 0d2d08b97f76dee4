/**
 Noninterference over whole runs: whatever other tenants do between a tenant's
 calls, in one world and in the other, the tenant gets the same answers.
 */
module IsolationRuns {
  import opened Prelude
  import opened TenantScope
  import opened TenantSimulation
  import opened AgentLoop
  import opened Conversations
  import opened Isolation

  /** A call of the tenant, made in both worlds; or what others make of the worlds meanwhile. */
  datatype Move = Mine(env: Env, call: ApiCall) | Theirs(a: World, b: World)

  /** Activity of others leaves the tenant's conversations and tickets alone. */
  ghost predicate KeepsMine(tenant: string, before: World, after: World) {
    && Project(tenant, after.conversations) == Project(tenant, before.conversations)
    && Project(tenant, after.store.tickets) == Project(tenant, before.store.tickets)
  }

  /** New ids stay new, and the shared counters advance equally in both worlds. */
  ghost predicate InStep(uuid: nat -> string, tenant: string, a: World, b: World) {
    && Unused(uuid, tenant, a.conversations, a.store.drawn) && Unused(uuid, tenant, a.store.tickets, a.store.drawn)
    && Unused(uuid, tenant, b.conversations, b.store.drawn) && Unused(uuid, tenant, b.store.tickets, b.store.drawn)
    && a.store.drawn == b.store.drawn && a.meter == b.meter
  }

  function WorldAfter(uuid: nat -> string, w: World, move: Move, first: bool): World {
    match move
    case Mine(env, call) => ServeCall(env, uuid, w, call).0
    case Theirs(a, b) => if first then a else b
  }

  /** The tenant's calls are made with isolated tools; others' activity keeps to its limits in both worlds. */
  ghost predicate Admissible(uuid: nat -> string, tenant: string, a: World, b: World, moves: seq<Move>)
    decreases |moves|
  {
    moves == [] ||
    (&& (match moves[0]
         case Mine(env, call) => Tenanted(env, uuid, tenant)
         case Theirs(a', b') => KeepsMine(tenant, a, a') && KeepsMine(tenant, b, b') && InStep(uuid, tenant, a', b'))
     && Admissible(uuid, tenant, WorldAfter(uuid, a, moves[0], true), WorldAfter(uuid, b, moves[0], false), moves[1..]))
  }

  /** What the tenant's calls are answered, in order, in the first or the second world. */
  function Answers(uuid: nat -> string, w: World, moves: seq<Move>, first: bool): seq<ApiResult>
    decreases |moves|
  {
    if moves == [] then []
    else
      (if moves[0].Mine? then [ServeCall(moves[0].env, uuid, w, moves[0].call).1] else [])
      + Answers(uuid, WorldAfter(uuid, w, moves[0], first), moves[1..], first)
  }

  function EndOf(uuid: nat -> string, w: World, moves: seq<Move>, first: bool): World
    decreases |moves|
  {
    if moves == [] then w else EndOf(uuid, WorldAfter(uuid, w, moves[0], first), moves[1..], first)
  }

  /** Noninterference over runs: from two worlds a tenant cannot tell apart, with
      any activity of others between its calls, different in each world, it is
      answered the same and still cannot tell the worlds apart. */
  lemma {:induction false} RunsAgree(uuid: nat -> string, tenant: string, a: World, b: World, moves: seq<Move>)
    requires AgreeWorlds(uuid, tenant, a, b) && Admissible(uuid, tenant, a, b, moves)
    ensures Answers(uuid, a, moves, true) == Answers(uuid, b, moves, false)
    ensures AgreeWorlds(uuid, tenant, EndOf(uuid, a, moves, true), EndOf(uuid, b, moves, false))
    decreases |moves|
  {
    if moves != [] {
      if moves[0].Mine? {
        CallsAgree(moves[0].env, uuid, tenant, a, b, moves[0].call);
      }
      RunsAgree(uuid, tenant, WorldAfter(uuid, a, moves[0], true), WorldAfter(uuid, b, moves[0], false), moves[1..]);
    }
  }

  /** Calls of other tenants are such activity. */
  lemma OthersKeepMine(env: Env, uuid: nat -> string, other: string, tenant: string, w: World, call: ApiCall)
    requires other != tenant && Tenanted(env, uuid, other) && AgreeWorlds(uuid, other, w, w)
    ensures KeepsMine(tenant, w, ServeCall(env, uuid, w, call).0)
  {
    CallsAgree(env, uuid, other, w, w, call);
  }
}
