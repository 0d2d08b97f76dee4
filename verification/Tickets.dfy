/**
 The tenant-domain ticket service over the shared, scoped ticket table.
 The functions say what each call does; the class does it through the client.
 */
module Tickets {
  import opened Prelude
  import opened TenantScope

  datatype TicketStatus = OPEN | IN_PROGRESS | RESOLVED | CLOSED

  datatype Ticket = Ticket(title: string, status: TicketStatus)

  /** The ticket table, and how many ids the id generator has handed out. */
  datatype Store = Store(tickets: seq<Row<Ticket>>, drawn: nat)

  datatype ServiceError = TicketNotFound | MissingTenantContext | DatabaseError

  datatype Answer<T> = Ok(value: T) | Throws(error: ServiceError)

  function Failure<T>(outcome: Outcome<Ticket>): Answer<T> {
    Throws(if outcome.Unauthorized? then MissingTenantContext else DatabaseError)
  }

  function RowOrFailure(outcome: Outcome<Ticket>): Answer<Row<Ticket>> {
    match outcome
    case One(row) => Ok(row)
    case _ => Failure(outcome)
  }

  function ById<T>(id: string): Where<T> {
    Where(None, (row: Row<T>) => row.id == id)
  }

  function ByStatus(status: Option<TicketStatus>): Where<Ticket> {
    Where(None, (row: Row<Ticket>) => status.None? || row.body.status == status.value)
  }

  /** Only the provided fields change. */
  function Edit(title: Option<string>, status: Option<TicketStatus>): Ticket -> Ticket {
    (t: Ticket) => Ticket(title.GetOr(t.title), status.GetOr(t.status))
  }

  /** Newest first: rows are kept in order of creation. */
  function NewestFirst<T>(rows: seq<T>): (r: seq<T>)
    ensures |r| == |rows|
    ensures forall i :: 0 <= i < |rows| ==> r[i] == rows[|rows| - 1 - i]
  {
    seq(|rows|, i requires 0 <= i < |rows| => rows[|rows| - 1 - i])
  }

  function Created(uuid: nat -> string, ctx: Context, store: Store, title: string): (Answer<Row<Ticket>>, Store) {
    var data := Payload(uuid(store.drawn), ctx.tenantId, Ticket(title, OPEN));
    var r := ScopedExec(ctx.tenantId, Create(data), store.tickets);
    (RowOrFailure(r.outcome), Store(r.rows, store.drawn + 1))
  }

  function FoundAll(ctx: Context, store: Store, status: Option<TicketStatus>): Answer<seq<Row<Ticket>>> {
    match ScopedExec(ctx.tenantId, FindMany(ByStatus(status)), store.tickets).outcome
    case Several(rows) => Ok(NewestFirst(rows))
    case o => Failure(o)
  }

  function FoundOne(ctx: Context, store: Store, id: string): Answer<Row<Ticket>> {
    match ScopedExec(ctx.tenantId, Find(ById(id), false), store.tickets).outcome
    case Absent => Throws(TicketNotFound)
    case o => RowOrFailure(o)
  }

  function Updated(ctx: Context, store: Store, id: string, title: Option<string>, status: Option<TicketStatus>)
    : (Answer<Row<Ticket>>, Store)
  {
    var found := FoundOne(ctx, store, id);
    if found.Throws? then (found, store)
    else
      var r := ScopedExec(ctx.tenantId, Update(ById(id), Edit(title, status)), store.tickets);
      (RowOrFailure(r.outcome), store.(tickets := r.rows))
  }

  function Removed(ctx: Context, store: Store, id: string): (Answer<Row<Ticket>>, Store) {
    var found := FoundOne(ctx, store, id);
    if found.Throws? then (found, store)
    else
      var r := ScopedExec(ctx.tenantId, Delete(ById(id)), store.tickets);
      (RowOrFailure(r.outcome), store.(tickets := r.rows))
  }

  class TicketsService {
    const client: ScopedClient<Ticket>
    const uuid: nat -> string
    var drawn: nat

    constructor (uuid: nat -> string, rows: seq<Row<Ticket>>)
      ensures Valid() && fresh(client) && this.uuid == uuid && Contents() == Store(rows, 0)
    {
      this.uuid, drawn := uuid, 0;
      client := new ScopedClient("Ticket", None, rows);
    }

    predicate Valid() {
      client.model == "Ticket" && client.tenantOverride.None?
    }

    function Contents(): Store
      reads this, client
    {
      Store(client.rows, drawn)
    }

    /** The arguments of a call that passes no payload. */
    method Selecting(w: Where<Ticket>, change: Ticket -> Ticket) returns (args: OperationArgs<Ticket>)
      ensures fresh(args) && args.data == [] && args.selector == w && args.change == change
    {
      args := new OperationArgs([], w, Payload("", None, Ticket("", OPEN)), change, rows => |rows|);
    }

    method Create(ctx: Context, title: string) returns (answer: Answer<Row<Ticket>>)
      requires Valid()
      modifies this`drawn, client
      ensures (answer, Contents()) == Created(uuid, ctx, old(Contents()), title)
    {
      var data := Payload(uuid(drawn), ctx.tenantId, Ticket(title, OPEN));
      var args := new OperationArgs([data], ById(""), data, t => t, rows => |rows|);
      drawn := drawn + 1;
      var outcome := client.AllOperations(CREATE, args, ctx);
      answer := RowOrFailure(outcome);
    }

    method FindAll(ctx: Context, status: Option<TicketStatus>) returns (answer: Answer<seq<Row<Ticket>>>)
      requires Valid()
      modifies client
      ensures answer == FoundAll(ctx, old(Contents()), status) && Contents() == old(Contents())
    {
      var args := Selecting(ByStatus(status), t => t);
      var outcome := client.AllOperations(FIND_MANY, args, ctx);
      answer := match outcome
        case Several(rows) => Ok(NewestFirst(rows))
        case o => Failure(o);
    }

    method FindOne(ctx: Context, id: string) returns (answer: Answer<Row<Ticket>>)
      requires Valid()
      modifies client
      ensures answer == FoundOne(ctx, old(Contents()), id) && Contents() == old(Contents())
    {
      var args := Selecting(ById(id), t => t);
      var outcome := client.AllOperations(FIND_UNIQUE, args, ctx);
      if outcome.Absent? {
        return Throws(TicketNotFound);
      }
      answer := RowOrFailure(outcome);
    }

    method Update(ctx: Context, id: string, title: Option<string>, status: Option<TicketStatus>)
      returns (answer: Answer<Row<Ticket>>)
      requires Valid()
      modifies client
      ensures (answer, Contents()) == Updated(ctx, old(Contents()), id, title, status)
    {
      answer := FindOne(ctx, id);
      if answer.Throws? {
        return;
      }
      var args := Selecting(ById(id), Edit(title, status));
      var outcome := client.AllOperations(UPDATE, args, ctx);
      answer := RowOrFailure(outcome);
    }

    method Remove(ctx: Context, id: string) returns (answer: Answer<Row<Ticket>>)
      requires Valid()
      modifies client
      ensures (answer, Contents()) == Removed(ctx, old(Contents()), id)
    {
      answer := FindOne(ctx, id);
      if answer.Throws? {
        return;
      }
      var args := Selecting(ById(id), t => t);
      var outcome := client.AllOperations(DELETE, args, ctx);
      answer := RowOrFailure(outcome);
    }
  }
}
