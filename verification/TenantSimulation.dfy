/**
 The shared table behaves like a family of private tables: what a tenant sees
 and leaves behind is what its own operations do, alone, on a table of its own.
 */
module TenantSimulation {
  import opened Prelude
  import opened TenantScope

  /** The private table of a tenant: its rows, in order. */
  function Project<T>(tenant: string, rows: seq<Row<T>>): seq<Row<T>> {
    if rows == [] then []
    else (if rows[0].tenantId == tenant then [rows[0]] else []) + Project(tenant, rows[1..])
  }

  /** The same operation on a private table: no `where` mentions a tenant, and
      the only possible owner is the tenant itself. Whatever `tenantId` the
      caller wrote is gone. */
  function Private<T>(op: Op<T>, tenant: string): Op<T> {
    Rekey(op, None, Some(tenant))
  }

  function NewIds<T>(op: Op<T>): seq<string> {
    match op
    case Create(data) => [data.id]
    case CreateMany(batch) => seq(|batch|, i requires 0 <= i < |batch| => batch[i].id)
    case Upsert(_, data, _) => [data.id]
    case _ => []
  }

  /** The operation finds its row, so it inserts nothing. */
  predicate OnlyUpdates<T>(op: Op<T>, tenant: string, rows: seq<Row<T>>) {
    op.Upsert? && Select(rows, op.selector.(tenantId := Some(tenant))) != []
  }

  /** No id the operation is about to insert is the id of another tenant's row. */
  ghost predicate NoForeignClash<T>(op: Op<T>, tenant: string, rows: seq<Row<T>>) {
    OnlyUpdates(op, tenant, rows) || forall r :: r in rows && r.tenantId != tenant ==> r.id !in NewIds(op)
  }

  // ------------------------------------------------------- table primitives

  lemma {:induction false} ProjectConcat<T>(tenant: string, a: seq<Row<T>>, b: seq<Row<T>>)
    ensures Project(tenant, a + b) == Project(tenant, a) + Project(tenant, b)
  {
    if a == [] {
      assert a + b == b;
    } else {
      ProjectConcat(tenant, a[1..], b);
      assert (a + b)[1..] == a[1..] + b;
    }
  }

  lemma {:induction false} ProjectMembers<T>(tenant: string, rows: seq<Row<T>>)
    ensures forall r :: r in Project(tenant, rows) <==> r in rows && r.tenantId == tenant
  {
    if rows != [] {
      ProjectMembers(tenant, rows[1..]);
      assert forall r :: r in rows <==> r == rows[0] || r in rows[1..];
    }
  }

  lemma ProjectHead<T>(tenant: string, rows: seq<Row<T>>)
    requires rows != []
    ensures rows[0].tenantId == tenant ==>
      var p := Project(tenant, rows); p != [] && p[0] == rows[0] && p[1..] == Project(tenant, rows[1..])
    ensures rows[0].tenantId != tenant ==> Project(tenant, rows) == Project(tenant, rows[1..])
  {
  }

  lemma HitsScoped<T>(tenant: string, w: Where<T>, row: Row<T>)
    ensures w.(tenantId := Some(tenant)).Hits(row) <==> row.tenantId == tenant && w.(tenantId := None).Hits(row)
  {
  }

  lemma {:induction false} SelectProject<T>(tenant: string, rows: seq<Row<T>>, w: Where<T>)
    ensures Select(rows, w.(tenantId := Some(tenant))) == Select(Project(tenant, rows), w.(tenantId := None))
  {
    if rows != [] {
      SelectProject(tenant, rows[1..], w);
      ProjectHead(tenant, rows);
      HitsScoped(tenant, w, rows[0]);
    }
  }

  lemma {:induction false} ChangeProject<T>(tenant: string, t: string, rows: seq<Row<T>>, w: Where<T>, change: T -> T,
                                            all: bool)
    ensures var shared := Change(rows, w.(tenantId := Some(tenant)), change, all);
      Project(t, shared) == if t == tenant then Change(Project(t, rows), w.(tenantId := None), change, all)
                            else Project(t, rows)
  {
    if rows != [] {
      var rest := rows[1..];
      ChangeProject(tenant, t, rest, w, change, all);
      ProjectHead(t, rows);
      var key := w.(tenantId := Some(tenant));
      HitsScoped(tenant, w, rows[0]);
      var shared := Change(rows, key, change, all);
      var tail := if key.Hits(rows[0]) && !all then rest else Change(rest, key, change, all);
      ProjectHead(t, shared);
      assert shared[1..] == tail;
    }
  }

  lemma {:induction false} RemoveProject<T>(tenant: string, t: string, rows: seq<Row<T>>, w: Where<T>, all: bool)
    ensures var shared := Remove(rows, w.(tenantId := Some(tenant)), all);
      Project(t, shared) == if t == tenant then Remove(Project(t, rows), w.(tenantId := None), all)
                            else Project(t, rows)
  {
    if rows != [] {
      var rest := rows[1..];
      RemoveProject(tenant, t, rest, w, all);
      ProjectHead(t, rows);
      var key := w.(tenantId := Some(tenant));
      HitsScoped(tenant, w, rows[0]);
      if !key.Hits(rows[0]) {
        var shared := Remove(rows, key, all);
        assert shared == [rows[0]] + Remove(rest, key, all);
        ProjectHead(t, shared);
        assert shared[1..] == Remove(rest, key, all);
      }
    }
  }

  lemma InsertProject<T>(tenant: string, t: string, rows: seq<Row<T>>, data: Payload<T>)
    requires data.tenantId == Some(tenant)
    requires forall r :: r in rows && r.tenantId != tenant ==> r.id != data.id
    ensures var shared := Insert(rows, data);
      var mine := Insert(Project(tenant, rows), data);
      && shared.outcome == mine.outcome
      && Project(t, shared.rows) == if t == tenant then mine.rows else Project(t, rows)
  {
    ProjectMembers(tenant, rows);
    var mine := Project(tenant, rows);
    if HasId(rows, data.id) {
      var i :| 0 <= i < |rows| && rows[i].id == data.id;
      assert rows[i] in rows;
      assert rows[i] in mine;
    }
    if HasId(mine, data.id) {
      var i :| 0 <= i < |mine| && mine[i].id == data.id;
      assert mine[i] in mine;
      assert mine[i] in rows;
    }
    ProjectConcat(t, rows, [Row(data.id, tenant, data.body)]);
  }

  lemma {:induction false} InsertManyProject<T>(tenant: string, t: string, rows: seq<Row<T>>, batch: seq<Payload<T>>)
    requires forall i :: 0 <= i < |batch| ==> batch[i].tenantId == Some(tenant)
    requires forall r, i :: r in rows && r.tenantId != tenant && 0 <= i < |batch| ==> r.id != batch[i].id
    ensures var shared := InsertMany(rows, batch);
      var mine := InsertMany(Project(tenant, rows), batch);
      && shared.outcome == mine.outcome
      && Project(t, shared.rows) == if t == tenant then mine.rows else Project(t, rows)
    decreases |batch|
  {
    if batch != [] {
      var first := Insert(rows, batch[0]);
      InsertProject(tenant, t, rows, batch[0]);
      InsertProject(tenant, tenant, rows, batch[0]);
      if first.outcome.One? {
        InsertManyProject(tenant, t, first.rows, batch[1..]);
      }
    }
  }

  // ---------------------------------------------------------- one operation

  /** One scoped operation of `tenant`: it answers what the private operation
      answers on the tenant's private table, does to that table what the private
      operation does, and leaves every other tenant's table alone. */
  lemma ScopedIsPrivate<T>(op: Op<T>, tenant: string, t: string, rows: seq<Row<T>>)
    requires NoForeignClash(op, tenant, rows)
    ensures var shared := Exec(Scoped(op, tenant), rows);
      var mine := Exec(Private(op, tenant), Project(tenant, rows));
      && shared.outcome == mine.outcome
      && Project(t, shared.rows) == if t == tenant then mine.rows else Project(t, rows)
  {
    match op
    case Create(data) =>
      assert data.id in NewIds(op);
      InsertProject(tenant, t, rows, data.(tenantId := Some(tenant)));
    case CreateMany(batch) =>
      forall i | 0 <= i < |batch| ensures batch[i].id in NewIds(op) {
        assert NewIds(op)[i] == batch[i].id;
      }
      InsertManyProject(tenant, t, rows, Stamp(batch, Some(tenant)));
    case Upsert(w, data, change) =>
      assert data.id in NewIds(op);
      SelectProject(tenant, rows, w);
      ChangeProject(tenant, t, rows, w, change, false);
      if !OnlyUpdates(op, tenant, rows) {
        InsertProject(tenant, t, rows, data.(tenantId := Some(tenant)));
      }
    case Find(w, _) => SelectProject(tenant, rows, w);
    case FindMany(w) => SelectProject(tenant, rows, w);
    case Aggregate(w, _) => SelectProject(tenant, rows, w);
    case Update(w, change) =>
      SelectProject(tenant, rows, w);
      ChangeProject(tenant, t, rows, w, change, false);
    case UpdateMany(w, change) =>
      SelectProject(tenant, rows, w);
      ChangeProject(tenant, t, rows, w, change, true);
    case Delete(w) =>
      SelectProject(tenant, rows, w);
      RemoveProject(tenant, t, rows, w, false);
    case DeleteMany(w) =>
      SelectProject(tenant, rows, w);
      RemoveProject(tenant, t, rows, w, true);
  }

  /** For a creation the condition is exact: one generated id decides, and when
      it is already another tenant's, the private table would have accepted it. */
  lemma CreateIsPrivateExactlyWithoutClash<T>(data: Payload<T>, tenant: string, rows: seq<Row<T>>)
    requires !HasId(Project(tenant, rows), data.id)
    ensures NoForeignClash(Create(data), tenant, rows)
       <==> Exec(Scoped(Create(data), tenant), rows).outcome
              == Exec(Private(Create(data), tenant), Project(tenant, rows)).outcome
  {
    if NoForeignClash(Create(data), tenant, rows) {
      ScopedIsPrivate(Create(data), tenant, tenant, rows);
    } else {
      var r :| r in rows && r.tenantId != tenant && r.id in NewIds(Create(data));
      var i :| 0 <= i < |rows| && rows[i] == r;
      assert HasId(rows, data.id);
    }
  }

  // ------------------------------------------------- every interleaving

  /** An operation and the tenant it is made for, if there is one. */
  datatype Call<!T> = Call(tenant: Option<string>, op: Op<T>)

  function SharedRun<T>(calls: seq<Call<T>>, rows: seq<Row<T>>): seq<Row<T>> {
    if calls == [] then rows
    else SharedRun(calls[1..], ScopedExec(calls[0].tenant, calls[0].op, rows).rows)
  }

  /** What `t` is answered along the run, in order. */
  function SharedAnswers<T>(t: string, calls: seq<Call<T>>, rows: seq<Row<T>>): seq<Outcome<T>> {
    if calls == [] then []
    else
      var r := ScopedExec(calls[0].tenant, calls[0].op, rows);
      (if calls[0].tenant == Some(t) then [r.outcome] else []) + SharedAnswers(t, calls[1..], r.rows)
  }

  function OwnOps<T>(t: string, calls: seq<Call<T>>): seq<Op<T>> {
    if calls == [] then []
    else (if calls[0].tenant == Some(t) then [calls[0].op] else []) + OwnOps(t, calls[1..])
  }

  /** The hook refuses the empty tenant, so it never touches its table. */
  function PrivateExec<T>(t: string, op: Op<T>, mine: seq<Row<T>>): Result<T> {
    if t == "" then Result(Unauthorized, mine) else Exec(Private(op, t), mine)
  }

  function PrivateRun<T>(t: string, ops: seq<Op<T>>, mine: seq<Row<T>>): seq<Row<T>> {
    if ops == [] then mine else PrivateRun(t, ops[1..], PrivateExec(t, ops[0], mine).rows)
  }

  function PrivateAnswers<T>(t: string, ops: seq<Op<T>>, mine: seq<Row<T>>): seq<Outcome<T>> {
    if ops == [] then []
    else
      var r := PrivateExec(t, ops[0], mine);
      [r.outcome] + PrivateAnswers(t, ops[1..], r.rows)
  }

  /** No operation that runs inserts an id of another tenant's row. */
  ghost predicate NoClashes<T>(calls: seq<Call<T>>, rows: seq<Row<T>>) {
    calls == [] ||
    (&& (calls[0].tenant.Some? && calls[0].tenant.value != ""
        ==> NoForeignClash(calls[0].op, calls[0].tenant.value, rows))
     && NoClashes(calls[1..], ScopedExec(calls[0].tenant, calls[0].op, rows).rows))
  }

  /** Tenant simulation: under any interleaving of any callers' operations, with or
      without a tenant, the projection to `t` and every answer `t` gets are those of
      `t`'s operations alone on its private table. */
  lemma {:induction false} InterleavingIsPrivate<T>(t: string, calls: seq<Call<T>>, rows: seq<Row<T>>)
    requires NoClashes(calls, rows)
    ensures Project(t, SharedRun(calls, rows)) == PrivateRun(t, OwnOps(t, calls), Project(t, rows))
    ensures SharedAnswers(t, calls, rows) == PrivateAnswers(t, OwnOps(t, calls), Project(t, rows))
  {
    if calls != [] {
      var c := calls[0];
      var next := ScopedExec(c.tenant, c.op, rows).rows;
      if c.tenant.Some? && c.tenant.value != "" {
        ScopedIsPrivate(c.op, c.tenant.value, t, rows);
      }
      InterleavingIsPrivate(t, calls[1..], next);
      var own := OwnOps(t, calls);
      if c.tenant == Some(t) {
        assert own == [c.op] + OwnOps(t, calls[1..]);
        assert own[0] == c.op && own[1..] == OwnOps(t, calls[1..]);
      } else {
        assert own == OwnOps(t, calls[1..]);
      }
    }
  }

  /** What a caller writes under `tenantId` changes nothing. */
  lemma CallerTenantIgnored<T>(op: Op<T>, tenant: Option<string>, key: Option<string>, column: Option<string>,
                               rows: seq<Row<T>>)
    ensures ScopedExec(tenant, Rekey(op, key, column), rows) == ScopedExec(tenant, op, rows)
  {
    if tenant.Some? {
      assert Scoped(Rekey(op, key, column), tenant.value) == Scoped(op, tenant.value) by {
        if op.CreateMany? {
          assert Stamp(Stamp(op.batch, column), tenant) == Stamp(op.batch, tenant);
        }
      }
    }
  }
}
