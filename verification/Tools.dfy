/**
 The tool registry: registration, dispatch, validation and the result envelope,
 for any tools; and the five ticket tools.
 */
module Tools {
  import opened Prelude
  import opened LlmTypes
  import opened TenantScope
  import opened Tickets

  datatype ToolErrorCode = NOT_FOUND | VALIDATION_ERROR | INTERNAL_ERROR | REJECTED_BY_USER

  datatype ToolError = ToolError(code: ToolErrorCode, message: string)

  datatype ToolResult = Success(data: Json) | Failed(error: ToolError)

  /** What validating the arguments gives. `Throwing` is a validator that itself throws. */
  datatype Parsed = Valid(input: Json) | Invalid(message: string) | Throwing(message: string)

  datatype ToolOutcome = Returned(result: ToolResult) | Threw(message: string)

  datatype Tool = Tool(
    name: string,
    description: string,
    mutating: bool,
    requiresApproval: bool,
    parse: Json -> Parsed,
    run: (Context, Store, Json) -> (ToolOutcome, Store))

  type Registry = map<string, Tool>

  /** How the promise returned by `execute` settles. */
  datatype Settled = Fulfilled(result: ToolResult) | Rejected(message: string)

  datatype Execution = Execution(settled: Settled, store: Store)

  const MAX_RESULT_CHARS := 4000

  function Digits(n: nat): string {
    if n < 10 then [("0123456789")[n]] else Digits(n / 10) + [("0123456789")[n % 10]]
  }

  function TruncationNote(length: nat): string {
    "\n\n[Result truncated — " + Digits(length) + " chars total. Refine your search to get fewer results.]"
  }

  /** Long data is cut and a note is added. The result can still equal the data:
      exactly when the data happens to continue with its own note. */
  function TruncateResult(data: string): (r: string)
    ensures r == data <==> |data| <= MAX_RESULT_CHARS || data[MAX_RESULT_CHARS..] == TruncationNote(|data|)
    ensures |data| > MAX_RESULT_CHARS ==>
      && |r| == MAX_RESULT_CHARS + |TruncationNote(|data|)|
      && data[..MAX_RESULT_CHARS] <= r && r[MAX_RESULT_CHARS..] == TruncationNote(|data|)
  {
    if |data| <= MAX_RESULT_CHARS then data
    else
      var head := data[..MAX_RESULT_CHARS];
      var note := TruncationNote(|data|);
      assert (head + note)[..MAX_RESULT_CHARS] == head && (head + note)[MAX_RESULT_CHARS..] == note;
      assert data == head + data[MAX_RESULT_CHARS..];
      head + note
  }

  function Clipped(stringify: Json -> string, result: ToolResult): ToolResult {
    match result
    case Success(JString(text)) => Success(JString(TruncateResult(text)))
    case Success(JObject(_)) => ClippedText(stringify(result.data), result)
    case Success(JArray(_)) => ClippedText(stringify(result.data), result)
    case Success(JNull) => ClippedText(stringify(result.data), result)
    case _ => result
  }

  function ClippedText(json: string, result: ToolResult): ToolResult {
    var truncated := TruncateResult(json);
    if truncated != json then Success(JString(truncated)) else result
  }

  /** What every tool execution depends on besides the ticket store. */
  datatype Host = Host(registry: Registry, stringify: Json -> string, ctx: Context)

  /** Runs a tool by name: unknown tools and invalid arguments are reported, a
      throwing tool becomes INTERNAL_ERROR, only a throwing validator rejects. */
  function Execute(host: Host, store: Store, name: string, arguments: Json): Execution {
    if name !in host.registry then
      Execution(Fulfilled(Failed(ToolError(VALIDATION_ERROR, "Unknown tool: " + name))), store)
    else
      match host.registry[name].parse(arguments)
      case Throwing(message) => Execution(Rejected(message), store)
      case Invalid(message) =>
        Execution(Fulfilled(Failed(ToolError(VALIDATION_ERROR, "Invalid input for " + name + ": " + message))), store)
      case Valid(input) =>
        var (outcome, after) := host.registry[name].run(host.ctx, store, input);
        match outcome
        case Threw(message) => Execution(Fulfilled(Failed(ToolError(INTERNAL_ERROR, message))), after)
        case Returned(result) => Execution(Fulfilled(Clipped(host.stringify, result)), after)
  }

  predicate NeedsApproval(registry: Registry, name: string) {
    name in registry && registry[name].requiresApproval
  }

  predicate IsMutating(registry: Registry, name: string) {
    name in registry && !registry[name].requiresApproval && registry[name].mutating
  }

  /** The read-only bucket, which includes unknown tools. */
  predicate IsReadOnly(registry: Registry, name: string) {
    !NeedsApproval(registry, name) && !IsMutating(registry, name)
  }

  /** Tools flagged neither mutating nor approval-needing leave the store alone. */
  ghost predicate UnflaggedToolsOnlyRead(registry: Registry) {
    forall name, ctx, store, input ::
      name in registry && IsReadOnly(registry, name) ==> registry[name].run(ctx, store, input).1 == store
  }

  lemma ReadOnlyExecution(host: Host, store: Store, name: string, arguments: Json)
    requires UnflaggedToolsOnlyRead(host.registry) && IsReadOnly(host.registry, name)
    ensures Execute(host, store, name, arguments).store == store
  {
  }

  class ToolRegistry {
    var tools: Registry
    var names: seq<string>   // in order of first registration

    constructor ()
      ensures tools == map[] && names == [] && Valid()
    {
      tools, names := map[], [];
    }

    ghost predicate Valid()
      reads this
    {
      && NoDup(names)
      && (forall n :: n in names <==> n in tools)
      && (forall n :: n in tools ==> tools[n].name == n)
    }

    /** A later tool of the same name takes the place of the earlier one. */
    method Register(tool: Tool)
      requires Valid()
      modifies this
      ensures Valid()
      ensures tools == old(tools)[tool.name := tool]
      ensures names == if tool.name in old(tools) then old(names) else old(names) + [tool.name]
    {
      if tool.name !in tools {
        names := names + [tool.name];
      }
      tools := tools[tool.name := tool];
    }

    function GetTool(name: string): (r: Option<Tool>)
      requires Valid()
      reads this
      ensures r.Some? <==> name in names
      ensures r.Some? ==> r.value.name == name
    {
      if name in tools then Some(tools[name]) else None
    }

    function GetDefinitions(): (defs: seq<ToolDefinition>)
      requires Valid()
      reads this
      ensures |defs| == |names|
      ensures forall i :: 0 <= i < |names| ==>
        defs[i] == ToolDefinition(names[i], tools[names[i]].description)
    {
      seq(|names|, i requires 0 <= i < |names| && Valid() reads this =>
        (assert names[i] in names; ToolDefinition(tools[names[i]].name, tools[names[i]].description)))
    }
  }

  // ------------------------------------------- the ticket tools (descriptions abridged)

  function StatusName(status: TicketStatus): string {
    match status
    case OPEN => "OPEN"
    case IN_PROGRESS => "IN_PROGRESS"
    case RESOLVED => "RESOLVED"
    case CLOSED => "CLOSED"
  }

  function StatusOf(name: string): Option<TicketStatus> {
    if name == "OPEN" then Some(OPEN)
    else if name == "IN_PROGRESS" then Some(IN_PROGRESS)
    else if name == "RESOLVED" then Some(RESOLVED)
    else if name == "CLOSED" then Some(CLOSED)
    else None
  }

  predicate HasText(fields: map<string, Json>, key: string) {
    key in fields && fields[key].JString?
  }

  /** `key` is absent, or a string accepted by `ok`. */
  predicate OptionalText(fields: map<string, Json>, key: string, ok: (string, string) -> bool) {
    key in fields ==> fields[key].JString? && ok(key, fields[key].s)
  }

  function Keep(fields: map<string, Json>, keys: set<string>): map<string, Json> {
    map k | k in fields && k in keys :: fields[k]
  }

  /** A schema over string fields: those it requires, those it allows, and the check
      of each; keys outside the schema are dropped. */
  function ParseFields(required: set<string>, allowed: set<string>, ok: (string, string) -> bool): Json -> Parsed {
    (arguments: Json) =>
      if !arguments.JObject? then Invalid("expected an object")
      else if exists k :: k in required && !HasText(arguments.fields, k) then Invalid("missing field")
      else if exists k :: k in required + allowed && !OptionalText(arguments.fields, k, ok) then Invalid("bad field")
      else Valid(JObject(Keep(arguments.fields, required + allowed)))
  }

  function Text(input: Json, key: string): Option<string> {
    if input.JObject? && HasText(input.fields, key) then Some(input.fields[key].s) else None
  }

  function StatusField(input: Json): Option<TicketStatus> {
    match Text(input, "status")
    case Some(name) => StatusOf(name)
    case None => None
  }

  function FieldCheck(isUuid: string -> bool): (string, string) -> bool {
    (key, text) =>
      if key == "ticketId" then isUuid(text)
      else if key == "title" then text != ""
      else StatusOf(text).Some?
  }

  function TicketJson(row: Row<Ticket>): Json {
    JObject(map[
      "id" := JString(row.id),
      "tenantId" := JString(row.tenantId),
      "title" := JString(row.body.title),
      "status" := JString(StatusName(row.body.status))])
  }

  function ErrorText(error: ServiceError): string {
    match error
    case TicketNotFound => "Ticket not found"
    case MissingTenantContext => "Missing tenant context. Tenant-scoped operations require an active tenant."
    case DatabaseError => "Database error"
  }

  /** Without a handler of its own, a tool lets service errors escape. */
  function Unhandled(answer: Answer<Json>): ToolOutcome {
    match answer
    case Ok(data) => Returned(Success(data))
    case Throws(error) => Threw(ErrorText(error))
  }

  /** A handler turns "not found" into NOT_FOUND and any other error into INTERNAL_ERROR. */
  function Handled(answer: Answer<Json>): ToolOutcome {
    match answer
    case Ok(data) => Returned(Success(data))
    case Throws(error) =>
      Returned(Failed(ToolError(if error.TicketNotFound? then NOT_FOUND else INTERNAL_ERROR, ErrorText(error))))
  }

  function AsJson(answer: Answer<Row<Ticket>>): Answer<Json> {
    match answer
    case Ok(row) => Ok(TicketJson(row))
    case Throws(error) => Throws(error)
  }

  function ListJson(answer: Answer<seq<Row<Ticket>>>): Answer<Json> {
    match answer
    case Ok(rows) => Ok(JArray(seq(|rows|, i requires 0 <= i < |rows| => TicketJson(rows[i]))))
    case Throws(error) => Throws(error)
  }

  function CreateTool(uuid: nat -> string, isUuid: string -> bool): Tool {
    Tool("create_ticket", "Create a ticket.", true, false,
      ParseFields({"title"}, {}, FieldCheck(isUuid)),
      (ctx, store, input) =>
        var r := Created(uuid, ctx, store, Text(input, "title").GetOr(""));
        (Unhandled(AsJson(r.0)), r.1))
  }

  function ListTool(isUuid: string -> bool): Tool {
    Tool("list_tickets", "List all tickets.", false, false,
      ParseFields({}, {"status"}, FieldCheck(isUuid)),
      (ctx, store, input) => (Unhandled(ListJson(FoundAll(ctx, store, StatusField(input)))), store))
  }

  function GetTicketTool(isUuid: string -> bool): Tool {
    Tool("get_ticket", "Get one ticket.", false, false,
      ParseFields({"ticketId"}, {}, FieldCheck(isUuid)),
      (ctx, store, input) => (Handled(AsJson(FoundOne(ctx, store, Text(input, "ticketId").GetOr("")))), store))
  }

  function UpdateTool(isUuid: string -> bool): Tool {
    Tool("update_ticket", "Update a ticket.", true, false,
      ParseFields({"ticketId"}, {"title", "status"}, FieldCheck(isUuid)),
      (ctx, store, input) =>
        var r := Updated(ctx, store, Text(input, "ticketId").GetOr(""), Text(input, "title"), StatusField(input));
        (Handled(AsJson(r.0)), r.1))
  }

  function DeleteTool(isUuid: string -> bool): Tool {
    Tool("delete_ticket", "Delete a ticket.", true, true,
      ParseFields({"ticketId"}, {}, FieldCheck(isUuid)),
      (ctx, store, input) =>
        var r := Removed(ctx, store, Text(input, "ticketId").GetOr(""));
        (Handled(AsJson(r.0)), r.1))
  }

  /** The registry the application runs with. */
  function TicketRegistry(uuid: nat -> string, isUuid: string -> bool): Registry {
    map[
      "create_ticket" := CreateTool(uuid, isUuid),
      "list_tickets" := ListTool(isUuid),
      "get_ticket" := GetTicketTool(isUuid),
      "update_ticket" := UpdateTool(isUuid),
      "delete_ticket" := DeleteTool(isUuid)]
  }

  /** Registering tools one after the other. */
  function Added(registry: Registry, tools: seq<Tool>): Registry
    decreases |tools|
  {
    if tools == [] then registry else Added(registry[tools[0].name := tools[0]], tools[1..])
  }

  method RegisterTools(registry: ToolRegistry, uuid: nat -> string, isUuid: string -> bool)
    requires registry.Valid()
    modifies registry
    ensures registry.Valid()
    ensures registry.tools == old(registry.tools) + TicketRegistry(uuid, isUuid)
  {
    var tools := [CreateTool(uuid, isUuid), ListTool(isUuid), GetTicketTool(isUuid), UpdateTool(isUuid),
                  DeleteTool(isUuid)];
    AddedTicketTools(registry.tools, uuid, isUuid);
    for i := 0 to |tools|
      invariant registry.Valid()
      invariant Added(registry.tools, tools[i..]) == Added(old(registry.tools), tools)
    {
      registry.Register(tools[i]);
    }
  }

  lemma AddedTicketTools(registry: Registry, uuid: nat -> string, isUuid: string -> bool)
    ensures Added(registry, [CreateTool(uuid, isUuid), ListTool(isUuid), GetTicketTool(isUuid), UpdateTool(isUuid),
                             DeleteTool(isUuid)])
         == registry + TicketRegistry(uuid, isUuid)
  {
    var c, l, g, u, d := CreateTool(uuid, isUuid), ListTool(isUuid), GetTicketTool(isUuid), UpdateTool(isUuid),
        DeleteTool(isUuid);
    assert [c, l, g, u, d][1..] == [l, g, u, d];
    assert [l, g, u, d][1..] == [g, u, d];
    assert [g, u, d][1..] == [u, d];
    assert [u, d][1..] == [d];
    var r1 := registry[c.name := c];
    var r2 := r1[l.name := l];
    var r3 := r2[g.name := g];
    var r4 := r3[u.name := u];
    assert [d][1..] == [];
    assert Added(r4, [d]) == r4[d.name := d];
    assert Added(r3, [u, d]) == Added(r4, [d]);
    assert Added(r1, [l, g, u, d]) == Added(r2, [g, u, d]) == Added(r3, [u, d]);
  }
}
