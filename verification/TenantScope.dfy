/**
 A shared table of tenant-owned rows, the database operations on it, and the
 rewriting that forces every operation into the active tenant.

 Rows are kept in order of creation. A row id is a primary key of the whole table.
 */
module TenantScope {
  import opened Prelude

  datatype Row<T> = Row(id: string, tenantId: string, body: T)

  /** The tenant and user bound to the request by the authentication layer. */
  datatype Context = Context(tenantId: Option<string>, userId: Option<string>)

  /** A `where` argument: the `tenantId` key a caller may have set, and every other
      condition, which may look at any column, a nested `tenantId` included. */
  datatype Where<!T> = Where(tenantId: Option<string>, matches: Row<T> -> bool) {
    predicate Hits(row: Row<T>) {
      (tenantId.None? || tenantId.value == row.tenantId) && matches(row)
    }
  }

  /** A `data` argument of a creation: the generated id, the `tenantId` key if set, the other columns. */
  datatype Payload<T> = Payload(id: string, tenantId: Option<string>, body: T)

  datatype Op<!T> =
    | Create(data: Payload<T>)
    | CreateMany(batch: seq<Payload<T>>)
    | Upsert(selector: Where<T>, data: Payload<T>, change: T -> T)
    | Find(selector: Where<T>, orThrow: bool)
    | FindMany(selector: Where<T>)
    | Aggregate(selector: Where<T>, fold: seq<Row<T>> -> int)
    | Update(selector: Where<T>, change: T -> T)
    | UpdateMany(selector: Where<T>, change: T -> T)
    | Delete(selector: Where<T>)
    | DeleteMany(selector: Where<T>)

  datatype Outcome<T> =
    | One(row: Row<T>)
    | Absent
    | Several(rows: seq<Row<T>>)
    | Number(n: int)
    | RecordNotFound
    | UniqueViolation
    | MissingColumn
    | Unauthorized

  datatype Result<T> = Result(outcome: Outcome<T>, rows: seq<Row<T>>)

  function Select<T>(rows: seq<Row<T>>, w: Where<T>): seq<Row<T>> {
    if rows == [] then []
    else (if w.Hits(rows[0]) then [rows[0]] else []) + Select(rows[1..], w)
  }

  predicate HasId<T>(rows: seq<Row<T>>, id: string) {
    exists i :: 0 <= i < |rows| && rows[i].id == id
  }

  /** Changes the first hit (every hit when `all`). */
  function Change<T>(rows: seq<Row<T>>, w: Where<T>, change: T -> T, all: bool): seq<Row<T>> {
    if rows == [] then []
    else if w.Hits(rows[0]) then
      [rows[0].(body := change(rows[0].body))] + (if all then Change(rows[1..], w, change, all) else rows[1..])
    else [rows[0]] + Change(rows[1..], w, change, all)
  }

  /** Removes the first hit (every hit when `all`). */
  function Remove<T>(rows: seq<Row<T>>, w: Where<T>, all: bool): seq<Row<T>> {
    if rows == [] then []
    else if w.Hits(rows[0]) then (if all then Remove(rows[1..], w, all) else rows[1..])
    else [rows[0]] + Remove(rows[1..], w, all)
  }

  function Insert<T>(rows: seq<Row<T>>, data: Payload<T>): Result<T> {
    if data.tenantId.None? then Result(MissingColumn, rows)
    else if HasId(rows, data.id) then Result(UniqueViolation, rows)
    else
      var row := Row(data.id, data.tenantId.value, data.body);
      Result(One(row), rows + [row])
  }

  /** Inserts all or nothing. */
  function InsertMany<T>(rows: seq<Row<T>>, batch: seq<Payload<T>>): Result<T>
    decreases |batch|
  {
    if batch == [] then Result(Number(0), rows)
    else
      var first := Insert(rows, batch[0]);
      if !first.outcome.One? then Result(first.outcome, rows)
      else
        var rest := InsertMany(first.rows, batch[1..]);
        if rest.outcome.Number? then rest.(outcome := Number(rest.outcome.n + 1))
        else Result(rest.outcome, rows)
  }

  /** The database itself: it obeys whatever `where` and `data` say. */
  function Exec<T>(op: Op<T>, rows: seq<Row<T>>): Result<T> {
    match op
    case Create(data) => Insert(rows, data)
    case CreateMany(batch) => InsertMany(rows, batch)
    case Upsert(w, data, change) =>
      var hits := Select(rows, w);
      if hits == [] then Insert(rows, data)
      else Result(One(hits[0].(body := change(hits[0].body))), Change(rows, w, change, false))
    case Find(w, orThrow) =>
      var hits := Select(rows, w);
      Result(if hits != [] then One(hits[0]) else if orThrow then RecordNotFound else Absent, rows)
    case FindMany(w) => Result(Several(Select(rows, w)), rows)
    case Aggregate(w, fold) => Result(Number(fold(Select(rows, w))), rows)
    case Update(w, change) =>
      var hits := Select(rows, w);
      if hits == [] then Result(RecordNotFound, rows)
      else Result(One(hits[0].(body := change(hits[0].body))), Change(rows, w, change, false))
    case UpdateMany(w, change) => Result(Number(|Select(rows, w)|), Change(rows, w, change, true))
    case Delete(w) =>
      var hits := Select(rows, w);
      if hits == [] then Result(RecordNotFound, rows)
      else Result(One(hits[0]), Remove(rows, w, false))
    case DeleteMany(w) => Result(Number(|Select(rows, w)|), Remove(rows, w, true))
  }

  function Stamp<T>(batch: seq<Payload<T>>, tenant: Option<string>): (stamped: seq<Payload<T>>)
    ensures |stamped| == |batch|
    ensures forall i :: 0 <= i < |batch| ==> stamped[i] == batch[i].(tenantId := tenant)
  {
    seq(|batch|, i requires 0 <= i < |batch| => batch[i].(tenantId := tenant))
  }

  /** The operation with its `tenantId` keys replaced: `key` in every `where`, `column` in every payload. */
  function Rekey<T>(op: Op<T>, key: Option<string>, column: Option<string>): Op<T> {
    match op
    case Create(data) => Create(data.(tenantId := column))
    case CreateMany(batch) => CreateMany(Stamp(batch, column))
    case Upsert(w, data, change) => Upsert(w.(tenantId := key), data.(tenantId := column), change)
    case Find(w, orThrow) => Find(w.(tenantId := key), orThrow)
    case FindMany(w) => FindMany(w.(tenantId := key))
    case Aggregate(w, fold) => Aggregate(w.(tenantId := key), fold)
    case Update(w, change) => Update(w.(tenantId := key), change)
    case UpdateMany(w, change) => UpdateMany(w.(tenantId := key), change)
    case Delete(w) => Delete(w.(tenantId := key))
    case DeleteMany(w) => DeleteMany(w.(tenantId := key))
  }

  /** What the rewriting makes of an operation of `tenant`. */
  function Scoped<T>(op: Op<T>, tenant: string): Op<T> {
    Rekey(op, Some(tenant), Some(tenant))
  }

  /** A scoped operation on the shared table; without a tenant nothing runs. */
  function ScopedExec<T>(tenant: Option<string>, op: Op<T>, rows: seq<Row<T>>): Result<T> {
    if tenant.None? || tenant.value == "" then Result(Unauthorized, rows)
    else Exec(Scoped(op, tenant.value), rows)
  }

  // ------------------------------------------------- the in-place rewriting

  const ADMIN_MODEL := "Tenant"

  datatype Operation =
    | CREATE | CREATE_MANY | UPSERT | FIND_UNIQUE | FIND_UNIQUE_OR_THROW | FIND_FIRST | FIND_FIRST_OR_THROW
    | FIND_MANY | COUNT | AGGREGATE | GROUP_BY | UPDATE | UPDATE_MANY | DELETE | DELETE_MANY

  /** The mutable `args` object of a database call. Only `data`, `selector` and `create` are ever overwritten. */
  class OperationArgs<T> {
    var data: seq<Payload<T>>
    var selector: Where<T>
    var create: Payload<T>
    const change: T -> T
    const fold: seq<Row<T>> -> int

    constructor (data: seq<Payload<T>>, selector: Where<T>, create: Payload<T>, change: T -> T,
                 fold: seq<Row<T>> -> int)
      ensures this.data == data && this.selector == selector && this.create == create
      ensures this.change == change && this.fold == fold
    {
      this.data, this.selector, this.create := data, selector, create;
      this.change, this.fold := change, fold;
    }

    /** The database operation these arguments denote. */
    function AsOp(operation: Operation): Op<T>
      reads this
      requires operation == CREATE ==> |data| == 1
    {
      match operation
      case CREATE => Create(data[0])
      case CREATE_MANY => CreateMany(data)
      case UPSERT => Upsert(selector, create, change)
      case FIND_UNIQUE => Find(selector, false)
      case FIND_FIRST => Find(selector, false)
      case FIND_UNIQUE_OR_THROW => Find(selector, true)
      case FIND_FIRST_OR_THROW => Find(selector, true)
      case FIND_MANY => FindMany(selector)
      case COUNT => Aggregate(selector, fold)
      case AGGREGATE => Aggregate(selector, fold)
      case GROUP_BY => Aggregate(selector, fold)
      case UPDATE => Update(selector, change)
      case UPDATE_MANY => UpdateMany(selector, change)
      case DELETE => Delete(selector)
      case DELETE_MANY => DeleteMany(selector)
    }
  }

  /** Overwrites the arguments so that the operation they denote is the scoped one. */
  method ApplyTenantScope<T>(model: string, operation: Operation, args: OperationArgs<T>, tenantId: string)
    requires operation == CREATE ==> |args.data| == 1
    modifies args
    ensures |args.data| == |old(args.data)|
    ensures model == ADMIN_MODEL ==>
      args.data == old(args.data) && args.selector == old(args.selector) && args.create == old(args.create)
    ensures model != ADMIN_MODEL ==> args.AsOp(operation) == Scoped(old(args.AsOp(operation)), tenantId)
    ensures operation !in {CREATE, CREATE_MANY} ==> args.data == old(args.data)
    ensures operation != UPSERT ==> args.create == old(args.create)
    ensures operation in {CREATE, CREATE_MANY} ==> args.selector == old(args.selector)
  {
    if model == ADMIN_MODEL {
      return;
    }
    match operation
    case CREATE =>
      args.data := [args.data[0].(tenantId := Some(tenantId))];
    case CREATE_MANY =>
      args.data := Stamp(args.data, Some(tenantId));
    case UPSERT =>
      args.selector := args.selector.(tenantId := Some(tenantId));
      args.create := args.create.(tenantId := Some(tenantId));
    case _ =>
      args.selector := args.selector.(tenantId := Some(tenantId));
  }

  /** The tenant-scoped client of one model: the only way domain code reaches the table. */
  class ScopedClient<T> {
    const model: string
    const tenantOverride: Option<string>
    var rows: seq<Row<T>>

    constructor (model: string, tenantOverride: Option<string>, rows: seq<Row<T>>)
      ensures this.model == model && this.tenantOverride == tenantOverride && this.rows == rows
    {
      this.model, this.tenantOverride, this.rows := model, tenantOverride, rows;
    }

    /** The tenant of an operation: the override if there is one, else the request's. */
    function TenantOf(ctx: Context): Option<string> {
      if tenantOverride.Some? then tenantOverride else ctx.tenantId
    }

    /** The hook around every operation. */
    method AllOperations(operation: Operation, args: OperationArgs<T>, ctx: Context) returns (outcome: Outcome<T>)
      requires operation == CREATE ==> |args.data| == 1
      modifies this`rows, args
      ensures model != ADMIN_MODEL && tenantOverride.Some? ==>
        Result(outcome, rows) == ScopedExec(tenantOverride, old(args.AsOp(operation)), old(rows))
      ensures model != ADMIN_MODEL && tenantOverride.None? ==>
        Result(outcome, rows) == ScopedExec(ctx.tenantId, old(args.AsOp(operation)), old(rows))
      ensures model == ADMIN_MODEL ==>
        Result(outcome, rows) == Exec(old(args.AsOp(operation)), old(rows))
    {
      if model == ADMIN_MODEL {
        var r := Exec(args.AsOp(operation), rows);
        rows := r.rows;
        return r.outcome;
      }
      var tenantId := TenantOf(ctx);
      if tenantId.None? || tenantId.value == "" {
        return Unauthorized;
      }
      ApplyTenantScope(model, operation, args, tenantId.value);
      var r := Exec(args.AsOp(operation), rows);
      rows := r.rows;
      outcome := r.outcome;
    }
  }
}
