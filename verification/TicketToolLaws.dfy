/**
 What the registry and the five ticket tools do, told from the arguments a caller
 sends to the tickets found afterwards; and that tickets only go by approval.
 */
module TicketToolLaws {
  import opened Prelude
  import opened LlmTypes
  import opened TenantScope
  import opened Tickets
  import opened Tools
  import opened AgentLoop
  import opened AgentShape
  import opened PendingCalls
  import opened Approvals
  import GuardedTools
  import opened TableLookup
  import opened TicketLaws

  // --------------------------------------------------------------- dispatch

  /** Every way a call can go: what is wrong with it is reported under the code of
      its kind and changes nothing; only a throwing validator rejects. */
  lemma ExecuteExactly(host: Host, store: Store, name: string, arguments: Json)
    ensures var e := Execute(host, store, name, arguments);
      && (name !in host.registry ==>
            && e.store == store && e.settled.Fulfilled? && e.settled.result.Failed?
            && e.settled.result.error == ToolError(VALIDATION_ERROR, "Unknown tool: " + name))
      && (name in host.registry ==>
            match host.registry[name].parse(arguments)
            case Throwing(message) => e.store == store && e.settled == Rejected(message)
            case Invalid(message) =>
              && e.store == store && e.settled.Fulfilled? && e.settled.result.Failed?
              && e.settled.result.error
                   == ToolError(VALIDATION_ERROR, "Invalid input for " + name + ": " + message)
            case Valid(input) =>
              var (outcome, after) := host.registry[name].run(host.ctx, store, input);
              && e.store == after && e.settled.Fulfilled?
              && (outcome.Threw? ==> e.settled.result == Failed(ToolError(INTERNAL_ERROR, outcome.message)))
              && (outcome.Returned? && outcome.result.Failed? ==> e.settled.result == outcome.result)
              && (outcome.Returned? && outcome.result.Success? ==>
                    e.settled.result.Success? && Fits(host.stringify, outcome.result.data, e.settled.result.data)))
  {
    if name in host.registry && host.registry[name].parse(arguments).Valid? {
      var (outcome, _) := host.registry[name].run(host.ctx, store, host.registry[name].parse(arguments).input);
      if outcome.Returned? && outcome.result.Success? {
        ClippedFits(host.stringify, outcome.result.data);
      }
    }
  }

  /** The text a value takes up when it is shown: a text itself, else the value printed. */
  function TextOf(stringify: Json -> string, data: Json): string {
    if data.JString? then data.s else stringify(data)
  }

  /** The number a decimal numeral stands for. */
  function Numeral(digits: string): int {
    if digits == "" then 0 else 10 * Numeral(digits[..|digits| - 1]) + (digits[|digits| - 1] as int - '0' as int)
  }

  predicate IsNumeral(digits: string) {
    && (forall i :: 0 <= i < |digits| ==> '0' <= digits[i] <= '9')
    && digits != "" && (|digits| > 1 ==> digits[0] != '0')
  }

  lemma {:induction false} DigitsCount(n: nat)
    ensures IsNumeral(Digits(n)) && Numeral(Digits(n)) == n
    ensures n > 0 ==> Digits(n)[0] != '0'
  {
    var last := [("0123456789")[n % 10]];
    assert last[0] as int == '0' as int + n % 10;
    if n < 10 {
      assert last[..0] == "" && Numeral(last) == n;
    } else {
      DigitsCount(n / 10);
      assert (Digits(n / 10) + last)[..|Digits(n / 10)|] == Digits(n / 10);
    }
  }

  /** The note of a cut text says how long the text was. */
  ghost predicate NoteFor(note: string, length: nat) {
    exists digits :: IsNumeral(digits) && Numeral(digits) == length
      && note == "\n\n[Result truncated — " + digits
           + " chars total. Refine your search to get fewer results.]"
  }

  lemma NoteCounts(length: nat)
    ensures NoteFor(TruncationNote(length), length)
  {
    DigitsCount(length);
    assert TruncationNote(length) == "\n\n[Result truncated — " + Digits(length)
      + " chars total. Refine your search to get fewer results.]";
  }

  /** A long text starts with the first 4000 characters and then has its note. */
  ghost predicate Shortened(text: string, shown: string) {
    && |text| > 4000 && |shown| > 4000
    && shown[..4000] == text[..4000] && NoteFor(shown[4000..], |text|)
  }

  /** What is shown of a tool's data: the data itself while it is short, or a flag or
      number; else its text, shortened. */
  ghost predicate Fits(stringify: Json -> string, data: Json, shown: Json) {
    var text := TextOf(stringify, data);
    if data.JBool? || data.JNumber? || |text| <= 4000 then shown == data
    else (shown.JString? && Shortened(text, shown.s)) || (shown == data && LooksShortened(text))
  }

  /** A text that already continues with its own note, so that cutting it changes nothing. */
  ghost predicate LooksShortened(text: string) {
    |text| > 4000 && NoteFor(text[4000..], |text|)
  }

  lemma ClippedFits(stringify: Json -> string, data: Json)
    ensures Clipped(stringify, Success(data)).Success?
    ensures Fits(stringify, data, Clipped(stringify, Success(data)).data)
  {
    var text := TextOf(stringify, data);
    var cut := TruncateResult(text);
    assert |text| > 4000 ==> cut[..4000] == text[..4000];
    NoteCounts(|text|);
  }

  // -------------------------------------------------------------- the flags

  /** Exactly deletion waits for a human, and exactly creation and update run in
      order without one; everything else counts as reading. */
  lemma FlagsExactly(uuid: nat -> string, isUuid: string -> bool, name: string)
    ensures var registry := TicketRegistry(uuid, isUuid);
      && (NeedsApproval(registry, name) <==> name == "delete_ticket")
      && (IsMutating(registry, name) <==> name in {"create_ticket", "update_ticket"})
      && (name in registry <==> name in {"create_ticket", "list_tickets", "get_ticket", "update_ticket",
                                         "delete_ticket"})
      && registry["create_ticket"] == CreateTool(uuid, isUuid) && registry["list_tickets"] == ListTool(isUuid)
      && registry["get_ticket"] == GetTicketTool(isUuid) && registry["update_ticket"] == UpdateTool(isUuid)
      && registry["delete_ticket"] == DeleteTool(isUuid)
  {
  }

  // ---------------------------------------------------------- what is accepted

  /** How a status is spelled. */
  predicate SpellsStatus(text: string, status: TicketStatus) {
    match status
    case OPEN => text == "OPEN"
    case IN_PROGRESS => text == "IN_PROGRESS"
    case RESOLVED => text == "RESOLVED"
    case CLOSED => text == "CLOSED"
  }

  predicate IsStatus(text: string) {
    text in {"OPEN", "IN_PROGRESS", "RESOLVED", "CLOSED"}
  }

  predicate TextAt(arguments: Json, key: string) {
    arguments.JObject? && key in arguments.fields && arguments.fields[key].JString?
  }

  predicate AbsentOr(arguments: Json, key: string, ok: string -> bool)
    requires arguments.JObject?
  {
    key in arguments.fields ==> arguments.fields[key].JString? && ok(arguments.fields[key].s)
  }

  lemma StatusTexts(text: string)
    ensures StatusOf(text).Some? <==> IsStatus(text)
    ensures StatusOf(text).Some? ==> SpellsStatus(text, StatusOf(text).value)
  {
  }

  lemma StatusNames(status: TicketStatus)
    ensures SpellsStatus(StatusName(status), status)
  {
  }

  /** The schema of each tool: what it requires, what it checks, and that it ignores all else. */
  lemma AcceptsExactly(uuid: nat -> string, isUuid: string -> bool, arguments: Json)
    ensures CreateTool(uuid, isUuid).parse(arguments).Valid? <==>
      TextAt(arguments, "title") && arguments.fields["title"].s != ""
    ensures ListTool(isUuid).parse(arguments).Valid? <==>
      arguments.JObject? && AbsentOr(arguments, "status", IsStatus)
    ensures GetTicketTool(isUuid).parse(arguments).Valid? <==>
      TextAt(arguments, "ticketId") && isUuid(arguments.fields["ticketId"].s)
    ensures UpdateTool(isUuid).parse(arguments).Valid? <==>
      && TextAt(arguments, "ticketId") && isUuid(arguments.fields["ticketId"].s)
      && AbsentOr(arguments, "title", text => text != "") && AbsentOr(arguments, "status", IsStatus)
    ensures DeleteTool(isUuid).parse(arguments).Valid? <==>
      TextAt(arguments, "ticketId") && isUuid(arguments.fields["ticketId"].s)
  {
    if arguments.JObject? {
      assert FieldCheck(isUuid)("title", "") == false;
      OneField(arguments, "title", isUuid);
      OneField(arguments, "ticketId", isUuid);
      ListFields(arguments, isUuid);
      UpdateFields(arguments, isUuid);
    }
  }

  /** `input` is `arguments` cut down to the keys of a schema. */
  predicate CutTo(input: Json, arguments: Json, schema: set<string>) {
    && arguments.JObject? && input.JObject?
    && input.fields.Keys == arguments.fields.Keys * schema
    && forall k :: k in input.fields ==> input.fields[k] == arguments.fields[k]
  }

  lemma ParseCuts(required: set<string>, allowed: set<string>, ok: (string, string) -> bool, arguments: Json)
    requires ParseFields(required, allowed, ok)(arguments).Valid?
    ensures CutTo(ParseFields(required, allowed, ok)(arguments).input, arguments, required + allowed)
  {
    var input := ParseFields(required, allowed, ok)(arguments).input;
    assert input == JObject(Keep(arguments.fields, required + allowed));
  }

  /** What a tool is handed: its accepted arguments, cut down to the keys of its schema. */
  lemma InputIsCut(uuid: nat -> string, isUuid: string -> bool, name: string, arguments: Json)
    requires name in TicketRegistry(uuid, isUuid) && TicketRegistry(uuid, isUuid)[name].parse(arguments).Valid?
    ensures CutTo(TicketRegistry(uuid, isUuid)[name].parse(arguments).input, arguments,
                  if name == "create_ticket" then {"title"}
                  else if name == "list_tickets" then {"status"}
                  else if name == "update_ticket" then {"ticketId", "title", "status"}
                  else {"ticketId"})
  {
    hide ParseFields, CutTo;
    var ok := FieldCheck(isUuid);
    if name == "create_ticket" {
      assert {"title"} + {} == {"title"};
      ParseCuts({"title"}, {}, ok, arguments);
    } else if name == "list_tickets" {
      assert {} + {"status"} == {"status"};
      ParseCuts({}, {"status"}, ok, arguments);
    } else if name == "update_ticket" {
      assert {"ticketId"} + {"title", "status"} == {"ticketId", "title", "status"};
      ParseCuts({"ticketId"}, {"title", "status"}, ok, arguments);
    } else {
      assert {"ticketId"} + {} == {"ticketId"};
      ParseCuts({"ticketId"}, {}, ok, arguments);
    }
  }

  lemma OneField(arguments: Json, key: string, isUuid: string -> bool)
    requires arguments.JObject?
    ensures ParseFields({key}, {}, FieldCheck(isUuid))(arguments).Valid? <==>
      TextAt(arguments, key) && FieldCheck(isUuid)(key, arguments.fields[key].s)
  {
    assert key in {key} && {key} + {} == {key};
    assert forall k :: k in {key} + {} <==> k == key;
    assert HasText(arguments.fields, key) <==> TextAt(arguments, key);
    assert OptionalText(arguments.fields, key, FieldCheck(isUuid)) <==>
      (key in arguments.fields ==> arguments.fields[key].JString? && FieldCheck(isUuid)(key, arguments.fields[key].s));
  }

  lemma ListFields(arguments: Json, isUuid: string -> bool)
    requires arguments.JObject?
    ensures ParseFields({}, {"status"}, FieldCheck(isUuid))(arguments).Valid?
        <==> AbsentOr(arguments, "status", IsStatus)
  {
    assert "status" in {} + {"status"};
    assert forall k :: k in {} + {"status"} <==> k == "status";
    StatusChecked(arguments, isUuid);
  }

  lemma StatusChecked(arguments: Json, isUuid: string -> bool)
    requires arguments.JObject?
    ensures OptionalText(arguments.fields, "status", FieldCheck(isUuid)) <==> AbsentOr(arguments, "status", IsStatus)
  {
    if TextAt(arguments, "status") {
      StatusTexts(arguments.fields["status"].s);
    }
  }

  lemma UpdateFields(arguments: Json, isUuid: string -> bool)
    requires arguments.JObject?
    ensures ParseFields({"ticketId"}, {"title", "status"}, FieldCheck(isUuid))(arguments).Valid? <==>
      && TextAt(arguments, "ticketId") && isUuid(arguments.fields["ticketId"].s)
      && AbsentOr(arguments, "title", text => text != "") && AbsentOr(arguments, "status", IsStatus)
  {
    var keys := {"ticketId"} + {"title", "status"};
    assert "ticketId" in {"ticketId"} && "ticketId" in keys && "title" in keys && "status" in keys;
    assert forall k :: k in keys <==> k == "ticketId" || k == "title" || k == "status";
    StatusChecked(arguments, isUuid);
    assert HasText(arguments.fields, "ticketId") <==> TextAt(arguments, "ticketId");
    assert OptionalText(arguments.fields, "title", FieldCheck(isUuid))
        <==> AbsentOr(arguments, "title", text => text != "");
  }

  // ------------------------------------------------------- what the tools do

  /** The value shows the ticket. */
  predicate ShowsTicket(json: Json, row: Row<Ticket>) {
    && json.JObject? && {"id", "tenantId", "title", "status"} <= json.fields.Keys
    && json.fields["id"] == JString(row.id) && json.fields["tenantId"] == JString(row.tenantId)
    && json.fields["title"] == JString(row.body.title)
    && json.fields["status"].JString? && SpellsStatus(json.fields["status"].s, row.body.status)
  }

  predicate Shown(outcome: ToolOutcome, row: Row<Ticket>) {
    outcome.Returned? && outcome.result.Success? && ShowsTicket(outcome.result.data, row)
  }

  predicate NotFound(outcome: ToolOutcome) {
    outcome == Returned(Failed(ToolError(NOT_FOUND, "Ticket not found")))
  }

  lemma TicketIsShown(row: Row<Ticket>)
    ensures ShowsTicket(TicketJson(row), row)
  {
    StatusNames(row.body.status);
  }

  /** A tool gets exactly the fields its schema knows. */
  lemma ParsedText(required: set<string>, allowed: set<string>, ok: (string, string) -> bool, arguments: Json,
                   key: string)
    requires ParseFields(required, allowed, ok)(arguments).Valid? && key in required + allowed
    ensures arguments.JObject? && (key in arguments.fields ==> arguments.fields[key].JString?)
    ensures Text(ParseFields(required, allowed, ok)(arguments).input, key)
         == if key in arguments.fields then Some(arguments.fields[key].s) else None
  {
    assert OptionalText(arguments.fields, key, ok);
  }

  /** The status an argument object asks for. */
  predicate AsksStatus(arguments: Json, status: Option<TicketStatus>) {
    if TextAt(arguments, "status") then status.Some? && SpellsStatus(arguments.fields["status"].s, status.value)
    else status.None?
  }

  lemma StatusAsked(input: Json, arguments: Json)
    requires arguments.JObject? && AbsentOr(arguments, "status", IsStatus)
    requires Text(input, "status") == if "status" in arguments.fields then Some(arguments.fields["status"].s) else None
    ensures AsksStatus(arguments, StatusField(input))
  {
    if "status" in arguments.fields {
      StatusTexts(arguments.fields["status"].s);
    }
  }

  lemma SpelledOnce(text: string, a: TicketStatus, b: TicketStatus)
    requires SpellsStatus(text, a) && SpellsStatus(text, b)
    ensures a == b
  {
  }

  /** Creating: the ticket has the title asked for, is open, and is the tenant's. */
  lemma CreateTicketTool(uuid: nat -> string, isUuid: string -> bool, ctx: Context, tenant: string, store: Store,
                         arguments: Json, other: string, otherId: string)
    requires Acts(ctx, tenant) && !HasId(store.tickets, uuid(store.drawn))
    requires CreateTool(uuid, isUuid).parse(arguments).Valid?
    ensures TextAt(arguments, "title")
    ensures var (outcome, after) :=
        CreateTool(uuid, isUuid).run(ctx, store, CreateTool(uuid, isUuid).parse(arguments).input);
      var row := Row(uuid(store.drawn), tenant, Ticket(arguments.fields["title"].s, OPEN));
      && Shown(outcome, row) && RowOf(after.tickets, tenant, row.id) == Some(row)
      && after.tickets == store.tickets + [row] && after.drawn == store.drawn + 1
      && ((other, otherId) != (tenant, row.id) ==>
            RowOf(after.tickets, other, otherId) == RowOf(store.tickets, other, otherId))
  {
    ParsedText({"title"}, {}, FieldCheck(isUuid), arguments, "title");
    OneField(arguments, "title", isUuid);
    var title := arguments.fields["title"].s;
    CreateThenFind(uuid, ctx, tenant, store, title, other, otherId);
    FindsOwn(ctx, tenant, Created(uuid, ctx, store, title).1, uuid(store.drawn));
    TicketIsShown(Row(uuid(store.drawn), tenant, Ticket(title, OPEN)));
  }

  /** Reading one: the tenant's ticket of that id, or NOT_FOUND. */
  lemma GetTicketToolLaw(isUuid: string -> bool, ctx: Context, tenant: string, store: Store, arguments: Json)
    requires Acts(ctx, tenant) && GetTicketTool(isUuid).parse(arguments).Valid?
    ensures TextAt(arguments, "ticketId")
    ensures var (outcome, after) := GetTicketTool(isUuid).run(ctx, store, GetTicketTool(isUuid).parse(arguments).input);
      var row := RowOf(store.tickets, tenant, arguments.fields["ticketId"].s);
      after == store && if row.Some? then Shown(outcome, row.value) else NotFound(outcome)
  {
    ParsedText({"ticketId"}, {}, FieldCheck(isUuid), arguments, "ticketId");
    OneField(arguments, "ticketId", isUuid);
    var id := arguments.fields["ticketId"].s;
    FindsOwn(ctx, tenant, store, id);
    if RowOf(store.tickets, tenant, id).Some? {
      TicketIsShown(RowOf(store.tickets, tenant, id).value);
    }
  }

  /** Updating: exactly the fields asked for change, to what was asked for. */
  lemma UpdateTicketTool(isUuid: string -> bool, ctx: Context, tenant: string, store: Store, arguments: Json,
                         other: string, otherId: string)
    requires Acts(ctx, tenant) && UpdateTool(isUuid).parse(arguments).Valid?
    ensures TextAt(arguments, "ticketId") && ("title" in arguments.fields ==> arguments.fields["title"].JString?)
    ensures var (outcome, after) := UpdateTool(isUuid).run(ctx, store, UpdateTool(isUuid).parse(arguments).input);
      var id := arguments.fields["ticketId"].s;
      var row, row' := RowOf(store.tickets, tenant, id), RowOf(after.tickets, tenant, id);
      && (if row.None? then NotFound(outcome) && after == store
          else
            && row'.Some? && Shown(outcome, row'.value) && row'.value.id == id && row'.value.tenantId == tenant
            && row'.value.body.title
                 == (if "title" in arguments.fields then arguments.fields["title"].s else row.value.body.title)
            && (if TextAt(arguments, "status") then SpellsStatus(arguments.fields["status"].s, row'.value.body.status)
                else row'.value.body.status == row.value.body.status))
      && ((other, otherId) != (tenant, id) ==>
            RowOf(after.tickets, other, otherId) == RowOf(store.tickets, other, otherId))
  {
    var input := UpdateTool(isUuid).parse(arguments).input;
    ParsedText({"ticketId"}, {"title", "status"}, FieldCheck(isUuid), arguments, "ticketId");
    ParsedText({"ticketId"}, {"title", "status"}, FieldCheck(isUuid), arguments, "title");
    ParsedText({"ticketId"}, {"title", "status"}, FieldCheck(isUuid), arguments, "status");
    UpdateFields(arguments, isUuid);
    StatusAsked(input, arguments);
    var id := arguments.fields["ticketId"].s;
    UpdateThenFind(ctx, tenant, store, id, Text(input, "title"), StatusField(input), other, otherId);
    var after := Updated(ctx, store, id, Text(input, "title"), StatusField(input)).1;
    FindsOwn(ctx, tenant, after, id);
    if RowOf(after.tickets, tenant, id).Some? {
      TicketIsShown(RowOf(after.tickets, tenant, id).value);
    }
  }

  /** Deleting: the ticket is shown as it was and then gone, or NOT_FOUND. */
  lemma DeleteTicketTool(isUuid: string -> bool, ctx: Context, tenant: string, store: Store, arguments: Json,
                         other: string, otherId: string)
    requires Acts(ctx, tenant) && UniqueKeys(store.tickets) && DeleteTool(isUuid).parse(arguments).Valid?
    ensures TextAt(arguments, "ticketId")
    ensures var (outcome, after) := DeleteTool(isUuid).run(ctx, store, DeleteTool(isUuid).parse(arguments).input);
      var id := arguments.fields["ticketId"].s;
      var row := RowOf(store.tickets, tenant, id);
      && (if row.None? then NotFound(outcome) && after == store else Shown(outcome, row.value))
      && RowOf(after.tickets, tenant, id).None?
      && ((other, otherId) != (tenant, id) ==>
            RowOf(after.tickets, other, otherId) == RowOf(store.tickets, other, otherId))
  {
    ParsedText({"ticketId"}, {}, FieldCheck(isUuid), arguments, "ticketId");
    OneField(arguments, "ticketId", isUuid);
    var id := arguments.fields["ticketId"].s;
    RemoveThenFind(ctx, tenant, store, id, other, otherId);
    FindsOwn(ctx, tenant, store, id);
    FindsOwn(ctx, tenant, Removed(ctx, store, id).1, id);
    if RowOf(store.tickets, tenant, id).Some? {
      TicketIsShown(RowOf(store.tickets, tenant, id).value);
    }
  }

  /** Listing: the tenant's tickets of the status asked for, or all of them, newest first. */
  lemma ListTicketsTool(isUuid: string -> bool, ctx: Context, tenant: string, store: Store, arguments: Json,
                        status: Option<TicketStatus>)
    requires Acts(ctx, tenant) && UniqueKeys(store.tickets) && ListTool(isUuid).parse(arguments).Valid?
    requires AsksStatus(arguments, status)
    ensures var (outcome, after) := ListTool(isUuid).run(ctx, store, ListTool(isUuid).parse(arguments).input);
      && after == store && outcome.Returned? && outcome.result.Success? && outcome.result.data.JArray?
      && exists listed :: OldestFirst(store.tickets, tenant, status, listed)
          && ListsBackwards(outcome.result.data.items, listed)
  {
    var input := ListTool(isUuid).parse(arguments).input;
    ParsedText({}, {"status"}, FieldCheck(isUuid), arguments, "status");
    ListFields(arguments, isUuid);
    StatusAsked(input, arguments);
    if TextAt(arguments, "status") {
      SpelledOnce(arguments.fields["status"].s, status.value, StatusField(input).value);
    }
    assert StatusField(input) == status;
    ListsExactly(ctx, tenant, store, status);
    var listed :| OldestFirst(store.tickets, tenant, status, listed) && FoundAll(ctx, store, status)
        == Ok(NewestFirst(listed));
    var items := ListJson(FoundAll(ctx, store, status)).value.items;
    forall i | 0 <= i < |listed| ensures ShowsTicket(items[i], listed[|listed| - 1 - i]) {
      TicketIsShown(listed[|listed| - 1 - i]);
    }
    assert ListsBackwards(items, listed);
  }

  ghost predicate ListsBackwards(items: seq<Json>, listed: seq<Row<Ticket>>) {
    |items| == |listed| && forall i :: 0 <= i < |listed| ==> ShowsTicket(items[i], listed[|listed| - 1 - i])
  }

  const NO_TENANT := "Missing tenant context. Tenant-scoped operations require an active tenant."

  /** Without a tenant no tool touches a ticket: creating and listing throw, the other
      tools report an internal error, both with the message of the scoping. */
  lemma ToolsNeedTenant(uuid: nat -> string, isUuid: string -> bool, ctx: Context, store: Store, input: Json)
    requires ctx.tenantId.None? || ctx.tenantId.value == ""
    ensures CreateTool(uuid, isUuid).run(ctx, store, input) == (Threw(NO_TENANT), store.(drawn := store.drawn + 1))
    ensures ListTool(isUuid).run(ctx, store, input) == (Threw(NO_TENANT), store)
    ensures GetTicketTool(isUuid).run(ctx, store, input)
         == (Returned(Failed(ToolError(INTERNAL_ERROR, NO_TENANT))), store)
    ensures UpdateTool(isUuid).run(ctx, store, input)
         == (Returned(Failed(ToolError(INTERNAL_ERROR, NO_TENANT))), store)
    ensures DeleteTool(isUuid).run(ctx, store, input)
         == (Returned(Failed(ToolError(INTERNAL_ERROR, NO_TENANT))), store)
  {
    var id, title := Text(input, "ticketId").GetOr(""), Text(input, "title");
    WithoutTenant(uuid, ctx, store, id, title, StatusField(input), title.GetOr(""));
    assert ErrorText(MissingTenantContext) == NO_TENANT;
    hide ErrorText, NO_TENANT;
  }

  // ------------------------------------------- tickets only go by approval

  /** The call asks to delete this ticket. */
  predicate Deletes(c: ToolCall, id: string) {
    c.name == "delete_ticket" && TextAt(c.arguments, "ticketId") && c.arguments.fields["ticketId"].s == id
  }

  predicate StillThere(tenant: string, id: string, before: Store, after: Store) {
    RowOf(before.tickets, tenant, id).Some? ==> RowOf(after.tickets, tenant, id).Some?
  }

  /** Without a tenant the tables stay as they are. */
  lemma WithoutTenant(uuid: nat -> string, ctx: Context, store: Store, id: string, title: Option<string>,
                      status: Option<TicketStatus>, name: string)
    requires ctx.tenantId.None? || ctx.tenantId.value == ""
    ensures Created(uuid, ctx, store, name).0 == Throws(MissingTenantContext)
    ensures Created(uuid, ctx, store, name).1.tickets == store.tickets
    ensures FoundAll(ctx, store, status) == Throws(MissingTenantContext)
    ensures FoundOne(ctx, store, id) == Throws(MissingTenantContext)
    ensures Updated(ctx, store, id, title, status) == (Throws(MissingTenantContext), store)
    ensures Removed(ctx, store, id) == (Throws(MissingTenantContext), store)
  {
  }

  lemma {:induction false} RemoveOther<T(!new)>(rows: seq<Row<T>>, t: string, k: string, tenant: string, id: string)
    requires (t, k) != (tenant, id)
    ensures RowOf(Remove(rows, Keyed<T>(t, k), false), tenant, id) == RowOf(rows, tenant, id)
  {
    if rows != [] {
      var rest := rows[1..];
      KeyedHits(t, k, rows[0]);
      RemoveOther(rest, t, k, tenant, id);
      assert ([rows[0]] + Remove(rest, Keyed<T>(t, k), false))[1..] == Remove(rest, Keyed<T>(t, k), false);
    }
  }

  lemma RemovedOther(ctx: Context, store: Store, k: string, tenant: string, id: string)
    requires k != id
    ensures StillThere(tenant, id, store, Removed(ctx, store, k).1)
  {
    if ctx.tenantId.Some? {
      RemoveOther(store.tickets, ctx.tenantId.value, k, tenant, id);
    }
  }

  lemma UpdatedKeeps(ctx: Context, store: Store, k: string, title: Option<string>, status: Option<TicketStatus>,
                     tenant: string, id: string)
    ensures StillThere(tenant, id, store, Updated(ctx, store, k, title, status).1)
  {
    if ctx.tenantId.Some? {
      ChangeRow(store.tickets, ctx.tenantId.value, k, Edit(title, status), tenant, id);
    }
  }

  lemma CreatedKeeps(uuid: nat -> string, ctx: Context, store: Store, title: string, tenant: string, id: string)
    ensures StillThere(tenant, id, store, Created(uuid, ctx, store, title).1)
  {
    if ctx.tenantId.Some? {
      AppendRow(store.tickets, Row(uuid(store.drawn), ctx.tenantId.value, Ticket(title, OPEN)), tenant, id);
    }
  }

  /** No call but its own deletion makes a ticket go. */
  lemma ExecuteKeeps(uuid: nat -> string, isUuid: string -> bool, host: Host, store: Store, c: ToolCall,
                     tenant: string, id: string)
    requires host.registry == TicketRegistry(uuid, isUuid) && !Deletes(c, id)
    ensures StillThere(tenant, id, store, Execute(host, store, c.name, c.arguments).store)
  {
    FlagsExactly(uuid, isUuid, c.name);
    if c.name in host.registry && host.registry[c.name].parse(c.arguments).Valid? {
      var input := host.registry[c.name].parse(c.arguments).input;
      if c.name == "create_ticket" {
        CreatedKeeps(uuid, host.ctx, store, Text(input, "title").GetOr(""), tenant, id);
      } else if c.name == "update_ticket" {
        UpdatedKeeps(host.ctx, store, Text(input, "ticketId").GetOr(""), Text(input, "title"), StatusField(input),
                     tenant, id);
      } else if c.name == "delete_ticket" {
        ParsedText({"ticketId"}, {}, FieldCheck(isUuid), c.arguments, "ticketId");
        OneField(c.arguments, "ticketId", isUuid);
        RemovedOther(host.ctx, store, c.arguments.fields["ticketId"].s, tenant, id);
      }
    }
  }

  lemma {:induction false} AnswerJobsKeepTicket(uuid: nat -> string, isUuid: string -> bool, env: Env, mode: Mode,
                                                jobs: seq<Job>, s: LoopState, tenant: string, id: string)
    requires env.host.registry == TicketRegistry(uuid, isUuid)
    requires forall j :: j in jobs && j.run ==> !Deletes(j.call, id)
    ensures StillThere(tenant, id, s.store, AnswerJobs(env, mode, jobs, s).s.store)
    decreases |jobs|
  {
    if jobs != [] {
      var call, rest := jobs[0].call, jobs[1..];
      var events := EventsOf(mode, jobs[0], s.acc.iterations);
      var e := Execute(env.host, s.store, call.name, call.arguments);
      assert jobs[0] in jobs && forall j :: j in rest ==> j in jobs;
      if !jobs[0].run {
        AnswerJobsKeepTicket(uuid, isUuid, env, mode, rest, Record(env, s, call, DENIED, s.store, events), tenant, id);
      } else {
        ExecuteKeeps(uuid, isUuid, env.host, s.store, call, tenant, id);
        if e.settled.Fulfilled? || mode.ReadOnly? {
          var one := Record(env, s, call, SettledResult(e.settled), e.store, events);
          AnswerJobsKeepTicket(uuid, isUuid, env, mode, rest, one, tenant, id);
        }
      }
    }
  }

  /** The safe calls of a batch delete nothing. */
  lemma SafeKeepsTicket(uuid: nat -> string, isUuid: string -> bool, env: Env, s: LoopState, r: LlmResponse,
                        tenant: string, id: string)
    requires env.host.registry == TicketRegistry(uuid, isUuid)
    ensures StillThere(tenant, id, s.store, AnswerSafe(env, s, r).s.store)
  {
    var registry := env.host.registry;
    var readJobs := RunAll(ReadOnlyCalls(registry, r.toolCalls));
    var writeJobs := RunAll(MutatingCalls(registry, r.toolCalls));
    PartitionMembers(registry, r.toolCalls);
    GuardedTools.RunAllMembers(ReadOnlyCalls(registry, r.toolCalls));
    GuardedTools.RunAllMembers(MutatingCalls(registry, r.toolCalls));
    forall j: Job | j in readJobs + writeJobs ensures !Deletes(j.call, id) {
      FlagsExactly(uuid, isUuid, j.call.name);
    }
    var asked := Replied(s, r);
    AnswerJobsKeepTicket(uuid, isUuid, env, ReadOnly, readJobs, asked, tenant, id);
    AnswerJobsKeepTicket(uuid, isUuid, env, Mutating, writeJobs, AnswerJobs(env, ReadOnly, readJobs, asked).s, tenant,
                         id);
  }

  lemma {:induction false} LoopKeepsTicket(uuid: nat -> string, isUuid: string -> bool, env: Env, f: Frame,
                                           s: LoopState,
                                           tenant: string, id: string)
    requires env.host.registry == TicketRegistry(uuid, isUuid)
    ensures StillThere(tenant, id, s.store, RunLoop(env, f, s).s.store)
    decreases env.budget.maxIterations - s.acc.iterations
  {
    if s.acc.iterations < env.budget.maxIterations {
      IterateAdvances(env, f, s);
      IterateCases(env, f, s);
      if HasBatch(env, f, s) {
        SafeKeepsTicket(uuid, isUuid, env, BatchStart(env, f, s), BatchReply(env, f, s), tenant, id);
      }
      if Iterate(env, f, s).Continue? {
        LoopKeepsTicket(uuid, isUuid, env, f, Iterate(env, f, s).s, tenant, id);
      }
    }
  }

  lemma StartKeepsTicket(uuid: nat -> string, isUuid: string -> bool, env: Env, conversationId: string, system: string,
                         s: LoopState, tenant: string, id: string)
    requires env.host.registry == TicketRegistry(uuid, isUuid)
    ensures StillThere(tenant, id, s.store, StartLoop(env, conversationId, system, s).s.store)
  {
    hide RunLoop;
    var f := Frame(conversationId, system, env.clock(s.meter.readings));
    LoopKeepsTicket(uuid, isUuid, env, f, s.(meter := s.meter.(readings := s.meter.readings + 1)), tenant, id);
  }

  /** The request approves a pending call that deletes this ticket. */
  ghost predicate ApprovesDeletion(session: Session, request: AgentLoop.Request, id: string) {
    && request.Approve?
    && exists c :: c in Pending(session.history) && Deletes(c, id) && Decision(c.id, true) in request.decisions
  }

  lemma ApproveKeepsTicket(uuid: nat -> string, isUuid: string -> bool, env: Env, session: Session,
                           decisions: seq<Decision>, tenant: string, id: string)
    requires env.host.registry == TicketRegistry(uuid, isUuid)
    requires !ApprovesDeletion(session, Approve(decisions), id)
    ensures StillThere(tenant, id, session.store, Serve(env, session, Approve(decisions)).0.store)
  {
    hide RunLoop;
    var checked := CheckApproval(env.host.registry, session.history, decisions);
    if checked.Jobs? {
      var jobs := checked.jobs;
      AcceptedExactly(env.host.registry, session.history, decisions);
      var done := AnswerJobs(env, Decided, jobs, ApproveStart(session));
      AnswerJobsKeepTicket(uuid, isUuid, env, Decided, jobs, ApproveStart(session), tenant, id);
      if done.error.None? {
        StartKeepsTicket(uuid, isUuid, env, session.conversationId, env.defaultSystem, done.s, tenant, id);
      }
    }
  }

  /** Deletion waits for a human: with the application's tools, whatever the model
      does, a ticket a request makes go was named by a pending delete_ticket call
      that this very request, an approval, approves. */
  lemma TicketsGoByApproval(uuid: nat -> string, isUuid: string -> bool, env: Env, session: Session,
                            request: AgentLoop.Request, tenant: string, id: string)
    requires env.host.registry == TicketRegistry(uuid, isUuid)
    requires RowOf(session.store.tickets, tenant, id).Some?
    requires RowOf(Serve(env, session, request).0.store.tickets, tenant, id).None?
    ensures ApprovesDeletion(session, request, id)
  {
    hide RunLoop, StartLoop;
    match request
    case Chat(text, system) =>
      StartKeepsTicket(uuid, isUuid, env, session.conversationId, system.GetOr(env.defaultSystem),
                       ChatStart(session, text), tenant, id);
    case Approve(decisions) =>
      if !ApprovesDeletion(session, request, id) {
        ApproveKeepsTicket(uuid, isUuid, env, session, decisions, tenant, id);
      }
  }

  /** Some request of the run approves a pending deletion of this ticket. */
  ghost predicate SomeApprovesDeletion(env: Env, session: Session, requests: seq<AgentLoop.Request>, id: string)
    decreases |requests|
  {
    requests != [] &&
    (ApprovesDeletion(session, requests[0], id)
     || SomeApprovesDeletion(env, Serve(env, session, requests[0]).0, requests[1..], id))
  }

  /** The same over every run. */
  lemma {:induction false} RunsDeleteByApproval(uuid: nat -> string, isUuid: string -> bool, env: Env, session: Session,
                                                requests: seq<AgentLoop.Request>, tenant: string, id: string)
    requires env.host.registry == TicketRegistry(uuid, isUuid)
    requires RowOf(session.store.tickets, tenant, id).Some?
    requires RowOf(Run(env, session, requests).store.tickets, tenant, id).None?
    ensures SomeApprovesDeletion(env, session, requests, id)
    decreases |requests|
  {
    if requests != [] {
      var next := Serve(env, session, requests[0]).0;
      if RowOf(next.store.tickets, tenant, id).Some? {
        RunsDeleteByApproval(uuid, isUuid, env, next, requests[1..], tenant, id);
      } else {
        TicketsGoByApproval(uuid, isUuid, env, session, requests[0], tenant, id);
      }
    }
  }
}
