/**
 The ticket service for a tenant, as laws between its calls: what each call
 returns, what looking tickets up gives afterwards, and what it leaves alone.
 */
module TicketLaws {
  import opened Prelude
  import opened TenantScope
  import opened Tickets
  import opened TableLookup

  /** The tenant of a context, when there is one. */
  predicate Acts(ctx: Context, tenant: string) {
    tenant != "" && ctx.tenantId == Some(tenant)
  }

  function Found(row: Option<Row<Ticket>>): Answer<Row<Ticket>> {
    match row
    case Some(r) => Ok(r)
    case None => Throws(TicketNotFound)
  }

  /** Looking up is by tenant and id. */
  lemma FindsOwn(ctx: Context, tenant: string, store: Store, id: string)
    requires Acts(ctx, tenant)
    ensures FoundOne(ctx, store, id) == Found(RowOf(store.tickets, tenant, id))
  {
    SelectIsRowOf(store.tickets, tenant, id);
  }

  /** A created ticket is open, belongs to its tenant, can be looked up, and leaves
      every other lookup of every tenant as it was. */
  lemma CreateThenFind(uuid: nat -> string, ctx: Context, tenant: string, store: Store, title: string, other: string,
                       id: string)
    requires Acts(ctx, tenant) && !HasId(store.tickets, uuid(store.drawn))
    ensures var (answer, after) := Created(uuid, ctx, store, title);
      var row := Row(uuid(store.drawn), tenant, Ticket(title, OPEN));
      && answer == Ok(row)
      && after == Store(store.tickets + [row], store.drawn + 1)
      && FoundOne(ctx, after, row.id) == Ok(row)
      && ((other, id) != (tenant, row.id) ==> RowOf(after.tickets, other, id) == RowOf(store.tickets, other, id))
  {
    var row := Row(uuid(store.drawn), tenant, Ticket(title, OPEN));
    var after := Created(uuid, ctx, store, title).1;
    FindsOwn(ctx, tenant, after, row.id);
    SelectIsRowOf(store.tickets, tenant, row.id);
    AppendRow(store.tickets, row, tenant, row.id);
    AppendRow(store.tickets, row, other, id);
  }

  /** An update returns and stores the ticket with exactly the provided fields
      changed, or finds nothing and changes nothing; no other lookup changes. */
  lemma UpdateThenFind(ctx: Context, tenant: string, store: Store, id: string, title: Option<string>,
                       status: Option<TicketStatus>, other: string, otherId: string)
    requires Acts(ctx, tenant)
    ensures var (answer, after) := Updated(ctx, store, id, title, status);
      var row := RowOf(store.tickets, tenant, id);
      && (row.None? ==> answer == Throws(TicketNotFound) && after == store)
      && (row.Some? ==>
            && answer.Ok? && answer.value.id == id && answer.value.tenantId == tenant
            && answer.value.body.title == title.GetOr(row.value.body.title)
            && answer.value.body.status == status.GetOr(row.value.body.status)
            && FoundOne(ctx, after, id) == answer)
      && ((other, otherId) != (tenant, id) ==>
            RowOf(after.tickets, other, otherId) == RowOf(store.tickets, other, otherId))
  {
    FindsOwn(ctx, tenant, store, id);
    SelectIsRowOf(store.tickets, tenant, id);
    var after := Updated(ctx, store, id, title, status).1;
    FindsOwn(ctx, tenant, after, id);
    ChangeRow(store.tickets, tenant, id, Edit(title, status), tenant, id);
    ChangeRow(store.tickets, tenant, id, Edit(title, status), other, otherId);
  }

  /** A removal returns the ticket as it was, after which it is not found, or finds
      nothing and changes nothing; no other lookup changes. */
  lemma RemoveThenFind(ctx: Context, tenant: string, store: Store, id: string, other: string, otherId: string)
    requires Acts(ctx, tenant) && UniqueKeys(store.tickets)
    ensures var (answer, after) := Removed(ctx, store, id);
      && answer == FoundOne(ctx, store, id)
      && FoundOne(ctx, after, id) == Throws(TicketNotFound)
      && (answer.Throws? ==> after == store)
      && ((other, otherId) != (tenant, id) ==>
            RowOf(after.tickets, other, otherId) == RowOf(store.tickets, other, otherId))
  {
    FindsOwn(ctx, tenant, store, id);
    SelectIsRowOf(store.tickets, tenant, id);
    var after := Removed(ctx, store, id).1;
    FindsOwn(ctx, tenant, after, id);
    RemoveRow(store.tickets, tenant, id, tenant, id);
    RemoveRow(store.tickets, tenant, id, other, otherId);
  }

  /** `hits` are rows of the table, in its order. */
  predicate Subsequence(hits: seq<Row<Ticket>>, rows: seq<Row<Ticket>>)
    decreases |rows|
  {
    if hits == [] then true
    else if rows == [] then false
    else (hits[0] == rows[0] && Subsequence(hits[1..], rows[1..])) || Subsequence(hits, rows[1..])
  }

  lemma {:induction false} SelectInOrder(rows: seq<Row<Ticket>>, w: Where<Ticket>)
    ensures Subsequence(Select(rows, w), rows)
  {
    if rows != [] {
      var later := Select(rows[1..], w);
      SelectInOrder(rows[1..], w);
      assert [] + later == later && ([rows[0]] + later)[1..] == later;
    }
  }

  lemma {:induction false} SelectMembers(rows: seq<Row<Ticket>>, w: Where<Ticket>)
    ensures forall r :: r in Select(rows, w) <==> r in rows && w.Hits(r)
  {
    if rows != [] {
      SelectMembers(rows[1..], w);
      assert forall r :: r in rows <==> r == rows[0] || r in rows[1..];
    }
  }

  lemma {:induction false} SelectUnique(rows: seq<Row<Ticket>>, w: Where<Ticket>)
    requires UniqueKeys(rows)
    ensures UniqueKeys(Select(rows, w))
  {
    if rows != [] {
      var rest := rows[1..];
      assert forall i :: 0 <= i < |rest| ==> rest[i] == rows[i + 1];
      SelectUnique(rest, w);
      SelectMembers(rest, w);
      var hits := Select(rest, w);
      assert forall i :: 0 <= i < |hits| ==> hits[i] in rest;
    }
  }

  /** Exactly the tenant's tickets of the asked status, each once, oldest first. */
  ghost predicate OldestFirst(rows: seq<Row<Ticket>>, tenant: string, status: Option<TicketStatus>,
                              listed: seq<Row<Ticket>>)
  {
    && (forall r :: r in listed <==>
          r in rows && r.tenantId == tenant && (status.None? || r.body.status == status.value))
    && UniqueKeys(listed)
    && Subsequence(listed, rows)
  }

  /** Listing gives exactly the tenant's tickets of the asked status, each once, newest first. */
  lemma ListsExactly(ctx: Context, tenant: string, store: Store, status: Option<TicketStatus>)
    requires Acts(ctx, tenant) && UniqueKeys(store.tickets)
    ensures exists listed ::
      OldestFirst(store.tickets, tenant, status, listed) && FoundAll(ctx, store, status) == Ok(NewestFirst(listed))
  {
    var w := ByStatus(status).(tenantId := Some(tenant));
    SelectMembers(store.tickets, w);
    SelectUnique(store.tickets, w);
    SelectInOrder(store.tickets, w);
    assert OldestFirst(store.tickets, tenant, status, Select(store.tickets, w));
  }
}
