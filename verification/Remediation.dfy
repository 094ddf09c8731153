/**
 The guarded writes: what each does to the server, what it returns, and what inverse its
 undo callable derives from that.

 Each operation is a function from the server before to the server after and a reply,
 with the link's behaviour as an input. `PgConnection` below is the connection the
 operations go through and changes the server in place; its methods are proved to be
 these functions.
 */
module Remediation {
  import opened Common
  import opened Json
  import opened Sql
  import opened Server
  import opened Statements
  import opened IndexDef
  import opened Outcome
  import Sanitize

  // ── the link ────────────────────────────────────────────────────────────

  // What happens to one statement: it runs; the server refuses it for a reason of its own
  // (privileges, a lock, a missing column); or the link dies, with the statement applied or not.
  datatype Fault = Runs | Refuses | Dies(applied: bool)

  const PG_ERROR: Exn := Exn(Pg, "statement failed")
  const LOST: Exn := Exn(Lost, "connection lost")
  // A ValueError: arguments that do not pass, an index that is not there, a guard.
  const REFUSED: Exn := Exn(Teaching, "refused")

  // `PgConnection.execute`
  function Execute(s: Server, text: string, f: Fault): (Server, Option<Exn>) {
    match f
    case Runs => (Submit(s, text).0, if Submit(s, text).1 then None else Some(PG_ERROR))
    case Refuses => (s, Some(PG_ERROR))
    case Dies(applied) => (if applied then Submit(s, text).0 else s, Some(LOST))
  }

  // ── create_index ────────────────────────────────────────────────────────

  const METHODS: set<string> := {"btree", "hash", "gist", "gin", "brin", "spgist"}

  predicate Blank(s: string) {
    forall i :: 0 <= i < |s| ==> PySpace(s[i])
  }

  function NonBlank(columns: seq<string>): seq<string> {
    if columns == [] then []
    else (if Blank(columns[0]) then [] else [columns[0]]) + NonBlank(columns[1..])
  }

  function Underscored(columns: seq<string>): string {
    if columns == [] then ""
    else if |columns| == 1 then columns[0]
    else columns[0] + "_" + Underscored(columns[1..])
  }

  function DefaultIndexName(table: string, columns: seq<string>): string {
    var parts := Split(table);
    var base := "idx_" + parts[|parts| - 1] + "_" + Underscored(columns);
    if |base| > 63 then base[..63] else base
  }

  predicate AllIdents(columns: seq<string>) {
    forall i :: 0 <= i < |columns| ==> MatchesIdent(columns[i])
  }

  // An absent or empty method is no method.
  function MethodOf(m: Option<string>): Option<string> {
    if m.Some? && m.value != "" then Some(Fold(m.value)) else None
  }

  function IndexName(table: string, columns: seq<string>, name: Option<string>): string {
    if name.Some? && name.value != "" then name.value else DefaultIndexName(table, columns)
  }

  predicate CreateArgsOk(table: string, columns: seq<string>, name: string, m: Option<string>) {
    && columns != [] && AllIdents(columns) && Qualify(table).Success? && MatchesIdent(name)
    && (m.Some? ==> m.value in METHODS)
  }

  function CreateIndexSql(table: string, columns: seq<string>, name: string, unique: bool, concurrently: bool, m: Option<string>): string
    requires CreateArgsOk(table, columns, name, m)
  {
    CreateText(unique, concurrently, QuoteIdent(name).value, Qualify(table).value, BodyText(m, columns))
  }

  function Strings(xs: seq<string>): seq<Value> {
    if xs == [] then [] else [Str(xs[0])] + Strings(xs[1..])
  }

  function CreatedResult(name: string, table: string, columns: seq<string>, concurrently: bool): Value {
    Dict([Entry("action", Str("create_index")), Entry("index", Str(name)), Entry("table", Str(table)),
          Entry("columns", List(Strings(columns))), Entry("concurrently", Bool(concurrently))])
  }

  function CreateIndexOp(s: Server, table: string, columns: seq<string>, name: Option<string>, unique: bool,
                         concurrently: bool, meth: Option<string>, f: Fault): (Server, Reply)
  {
    var cols := NonBlank(columns);
    var index := IndexName(table, cols, name);
    var m := MethodOf(meth);
    if !CreateArgsOk(table, cols, index, m) then (s, Raised(REFUSED))
    else
      var (s', e) := Execute(s, CreateIndexSql(table, cols, index, unique, concurrently, m), f);
      (s', if e.Some? then Raised(e.value) else Returned(CreatedResult(index, table, cols, concurrently)))
  }

  function ReplayedResult(name: string): Value {
    Dict([Entry("action", Str("create_index")), Entry("index", Str(name)), Entry("fromDefinition", Bool(true))])
  }

  function CreateFromDefinition(s: Server, definition: string, f: Fault): (Server, Reply) {
    match Gate(definition)
    case NotSingle => (s, Raised(REFUSED))
    case BadShape => (s, Raised(REFUSED))
    case Pass(stmt, index) =>
      var (s', e) := Execute(s, stmt, f);
      (s', if e.Some? then Raised(e.value) else Returned(ReplayedResult(index)))
  }

  // ── drop_index ──────────────────────────────────────────────────────────

  const DEF_MAX: int := 2000

  // The index whose definition is captured.
  function Captured(s: Server, name: string): Option<RelName> {
    match RegClass(s, name)
    case Some(k) => if IsIndex(s, k) then Some(k) else None
    case None => None
  }

  function DroppedResult(name: string, indexdef: string): Value {
    Dict([Entry("action", Str("drop_index")), Entry("index", Str(name)),
          Entry("priorState", Dict([Entry("indexdef", Str(Sanitize.Sanitize(indexdef, DEF_MAX)))]))])
  }

  function DropIndexOp(s: Server, name: string, concurrently: bool, q: Fault, f: Fault): (Server, Reply) {
    if Qualify(name).Failure? then (s, Raised(REFUSED))
    else if q != Runs then (s, Raised(PG_ERROR))
    else
      match Captured(s, name)
      case None => (s, Raised(REFUSED))
      case Some(k) =>
        assert IsIndex(s, k);
        var (s', e) := Execute(s, DropText(concurrently, Qualify(name).value), f);
        (s', if e.Some? then Raised(e.value) else Returned(DroppedResult(name, PrintDef(s, k))))
  }

  // ── update_setting ──────────────────────────────────────────────────────

  const SELF_AFFECTING: set<string> :=
    {"listen_addresses", "port", "max_connections", "superuser_reserved_connections", "ssl", "hba_file"}

  predicate LocksOut(name: string) {
    Fold(Trim(name)) in SELF_AFFECTING
  }

  const AUTO_CONF: string := "postgresql.auto.conf"

  predicate EndsWith(s: string, tail: string) {
    |s| >= |tail| && s[|s| - |tail|..] == tail
  }

  // The row of pg_settings, if the view has one of that very name.
  function PriorRow(s: Server, name: string): Option<Setting> {
    if name in s.view then Some(s.view[name]) else None
  }

  predicate PinnedRow(r: Option<Setting>) {
    r.Some? && EndsWith(r.value.sourcefile, AUTO_CONF)
  }

  function PriorValue(r: Option<Setting>): string {
    Sanitize.Sanitize(if r.Some? then r.value.value else "", 256)
  }

  predicate NeedsRestart(r: Option<Setting>) {
    r.Some? && (r.value.pendingRestart || r.value.context == "postmaster")
  }

  function UpdatedResult(name: string, value: Option<string>, r: Option<Setting>): Value {
    Dict([Entry("priorState", Dict([Entry("value", Str(PriorValue(r))), Entry("pinnedInAutoConf", Bool(PinnedRow(r)))])),
          Entry("action", Str("update_setting")), Entry("setting", Str(name)),
          Entry("newValue", if value.Some? then Str(value.value) else Null), Entry("reset", Bool(value.None?)),
          Entry("reloadRequired", Bool(true)), Entry("restartRequired", Bool(NeedsRestart(r)))])
  }

  // None for a reset.
  function SettingSql(name: string, value: Option<string>): string {
    match value case Some(v) => SetText(name, v) case None => ResetText(name)
  }

  function UpdateSettingOp(s: Server, name: string, value: Option<string>, reset: bool, q: Fault, f: Fault): (Server, Reply) {
    if LocksOut(name) then (s, Raised(REFUSED))
    else if !MatchesParam(name) then (s, Raised(REFUSED))
    else if !reset && value.None? then (s, Raised(REFUSED))
    else if q != Runs then (s, Raised(PG_ERROR))
    else
      var v := if reset then None else value;
      var (s', e) := Execute(s, SettingSql(name, v), f);
      (s', if e.Some? then Raised(e.value) else Returned(UpdatedResult(name, v, PriorRow(s, name))))
  }

  // ── the connection ──────────────────────────────────────────────────────

  class PgConnection {
    var server: Server

    constructor (server: Server)
      ensures this.server == server
    {
      this.server := server;
    }

    method RunStatement(text: string, f: Fault) returns (e: Option<Exn>)
      modifies this
      ensures (server, e) == Execute(old(server), text, f)
    {
      if f.Refuses? {
        return Some(PG_ERROR);
      }
      var taken := false;
      if f.Runs? || f.applied {
        var out := Submit(server, text);
        server, taken := out.0, out.1;
      }
      return if f.Dies? then Some(LOST) else if taken then None else Some(PG_ERROR);
    }

    method IndexDefinition(name: string, q: Fault) returns (def: Result<Option<string>, Exn>)
      ensures q == Runs ==> def == Success(if Captured(server, name).None? then None
                                           else Some(PrintDef(server, Captured(server, name).value)))
      ensures q != Runs ==> def == Failure(PG_ERROR)
    {
      if q != Runs {
        return Failure(PG_ERROR);
      }
      var oid := RegClass(server, name);
      if oid.None? || !IsIndex(server, oid.value) {
        return Success(None);
      }
      return Success(Some(PrintDef(server, oid.value)));
    }

    method CreateIndex(table: string, columns: seq<string>, name: Option<string>, unique: bool, concurrently: bool,
                       meth: Option<string>, f: Fault) returns (r: Reply)
      modifies this
      ensures (server, r) == CreateIndexOp(old(server), table, columns, name, unique, concurrently, meth, f)
    {
      var cols := NonBlank(columns);
      var index := IndexName(table, cols, name);
      var m := MethodOf(meth);
      if !CreateArgsOk(table, cols, index, m) {
        return Raised(REFUSED);
      }
      var e := RunStatement(CreateIndexSql(table, cols, index, unique, concurrently, m), f);
      if e.Some? {
        return Raised(e.value);
      }
      r := Returned(CreatedResult(index, table, cols, concurrently));
    }

    method DropIndex(name: string, concurrently: bool, q: Fault, f: Fault) returns (r: Reply)
      modifies this
      ensures (server, r) == DropIndexOp(old(server), name, concurrently, q, f)
    {
      if Qualify(name).Failure? {
        return Raised(REFUSED);
      }
      var def := IndexDefinition(name, q);
      if def.Failure? {
        return Raised(def.error);
      }
      if def.value.None? {
        return Raised(REFUSED);
      }
      var e := RunStatement(DropText(concurrently, Qualify(name).value), f);
      if e.Some? {
        return Raised(e.value);
      }
      r := Returned(DroppedResult(name, def.value.value));
    }

    method UpdateSetting(name: string, value: Option<string>, reset: bool, q: Fault, f: Fault) returns (r: Reply)
      modifies this
      ensures (server, r) == UpdateSettingOp(old(server), name, value, reset, q, f)
    {
      if LocksOut(name) {
        return Raised(REFUSED);
      }
      if !MatchesParam(name) {
        return Raised(REFUSED);
      }
      if !reset && value.None? {
        return Raised(REFUSED);
      }
      if q != Runs {
        return Raised(PG_ERROR);
      }
      var prior := PriorRow(server, name);
      var v := if reset then None else value;
      var e := RunStatement(SettingSql(name, v), f);
      if e.Some? {
        return Raised(e.value);
      }
      r := Returned(UpdatedResult(name, v, prior));
    }
  }

  // ── undo callables ──────────────────────────────────────────────────────

  // A registered tool by its name; only the three reversible ones are told apart.
  datatype Tool = CreateTool | DropTool | SettingTool | Named(name: string)

  // The inverse tool and its parameters.
  datatype Descriptor = Descriptor(tool: Tool, params: Value)

  function DropDescriptor(index: Value): Descriptor {
    Descriptor(DropTool, Dict([Entry("name", index)]))
  }

  function CreateUndo(result: Value): Option<Descriptor> {
    if Truthy(Get(result, "index")) then Some(DropDescriptor(Get(result, "index"))) else None
  }

  // `(result.get("priorState") or {})`; a non-dict there raises, which records nothing.
  function Prior(result: Value): Value {
    Get(result, "priorState")
  }

  function ReplayDescriptor(definition: Value): Descriptor {
    Descriptor(CreateTool, Dict([Entry("definition", definition)]))
  }

  function DropUndo(result: Value): Option<Descriptor> {
    var def := Get(Prior(result), "indexdef");
    if Truthy(def) then Some(ReplayDescriptor(def)) else None
  }

  function ResetDescriptor(name: Value): Descriptor {
    Descriptor(SettingTool, Dict([Entry("name", name), Entry("reset", Bool(true))]))
  }

  function SetDescriptor(name: Value, value: Value): Descriptor {
    Descriptor(SettingTool, Dict([Entry("name", name), Entry("value", value)]))
  }

  function SettingUndo(params: Value, result: Value): Option<Descriptor> {
    if !result.Dict? || (Truthy(Prior(result)) && !Prior(result).Dict?) then None
    else if !Truthy(Get(Prior(result), "pinnedInAutoConf")) then Some(ResetDescriptor(Get(params, "name")))
    else
      var value := Get(Prior(result), "value");
      if value == Null || value == Str("") then None else Some(SetDescriptor(Get(params, "name"), value))
  }

  // ── the tools ───────────────────────────────────────────────────────────

  function OptStr(params: Value, key: string): Option<string> {
    match Get(params, key) case Str(s) => Some(s) case _ => None
  }

  function Text(v: Value): string {
    match v case Str(s) => s case _ => "?"
  }

  function Texts(vs: seq<Value>): seq<string> {
    if vs == [] then [] else [Text(vs[0])] + Texts(vs[1..])
  }

  function Columns(params: Value): seq<string> {
    match Get(params, "columns") case List(items) => Texts(items) case _ => []
  }

  predicate Given(o: Option<string>) {
    o.Some? && o.value != ""
  }

  function CreateIndexTool(s: Server, params: Value, dryRun: bool, f: Fault): (Server, Reply) {
    var definition, table := OptStr(params, "definition"), OptStr(params, "table");
    var columns := Columns(params);
    if Given(definition) && (Given(table) || columns != []) then (s, Raised(REFUSED))
    else if !Given(definition) && !(Given(table) && columns != []) then (s, Raised(REFUSED))
    else if dryRun then (s, Returned(Dict([Entry("dryRun", Bool(true))])))
    else if Given(definition) then CreateFromDefinition(s, definition.value, f)
    else CreateIndexOp(s, table.value, columns, OptStr(params, "name"), Truthy(Get(params, "unique")),
                       Truthy(Get(params, "concurrently")), OptStr(params, "method"), f)
  }

  function DropIndexTool(s: Server, params: Value, dryRun: bool, q: Fault, f: Fault): (Server, Reply) {
    match Get(params, "name")
    case Str(name) =>
      if dryRun then (s, Returned(Dict([Entry("dryRun", Bool(true))])))
      else DropIndexOp(s, name, Truthy(Get(params, "concurrently")), q, f)
    case _ => (s, Raised(REFUSED))
  }

  function UpdateSettingTool(s: Server, params: Value, dryRun: bool, q: Fault, f: Fault): (Server, Reply) {
    match Get(params, "name")
    case Str(name) =>
      if LocksOut(name) then (s, Raised(REFUSED))
      else if dryRun then (s, Returned(Dict([Entry("dryRun", Bool(true))])))
      else UpdateSettingOp(s, name, OptStr(params, "value"), Truthy(Get(params, "reset")), q, f)
    case _ => (s, Raised(REFUSED))
  }

  // A reversible tool's body, before `tool_errors`. Others leave this part of the server alone.
  function RunTool(s: Server, tool: Tool, params: Value, dryRun: bool, q: Fault, f: Fault): (Server, Reply) {
    match tool
    case CreateTool => CreateIndexTool(s, params, dryRun, f)
    case DropTool => DropIndexTool(s, params, dryRun, q, f)
    case SettingTool => UpdateSettingTool(s, params, dryRun, q, f)
    case Named(_) => (s, Returned(Dict([])))
  }

  // Its undo callable.
  function Undo(tool: Tool, params: Value, result: Value): Option<Descriptor> {
    match tool
    case CreateTool => CreateUndo(result)
    case DropTool => DropUndo(result)
    case SettingTool => SettingUndo(params, result)
    case Named(_) => None
  }

  // ── the one statement a tool sends ──────────────────────────────────────

  function CreateSends(params: Value): Option<string> {
    var definition, table := OptStr(params, "definition"), OptStr(params, "table");
    var columns := Columns(params);
    if Given(definition) == (Given(table) && columns != []) || (Given(definition) && (Given(table) || columns != [])) then None
    else if Given(definition) then
      match Gate(definition.value) case Pass(stmt, _) => Some(stmt) case _ => None
    else
      var cols, m := NonBlank(columns), MethodOf(OptStr(params, "method"));
      var index := IndexName(table.value, cols, OptStr(params, "name"));
      if !CreateArgsOk(table.value, cols, index, m) then None
      else Some(CreateIndexSql(table.value, cols, index, Truthy(Get(params, "unique")), Truthy(Get(params, "concurrently")), m))
  }

  function DropSends(s: Server, params: Value): Option<string> {
    match Get(params, "name")
    case Str(name) =>
      if Qualify(name).Failure? || Captured(s, name).None? then None
      else Some(DropText(Truthy(Get(params, "concurrently")), Qualify(name).value))
    case _ => None
  }

  function SettingSends(params: Value): Option<string> {
    match Get(params, "name")
    case Str(name) =>
      var value, reset := OptStr(params, "value"), Truthy(Get(params, "reset"));
      if LocksOut(name) || !MatchesParam(name) || (!reset && value.None?) then None
      else Some(SettingSql(name, if reset then None else value))
    case _ => None
  }

  function Sends(s: Server, tool: Tool, params: Value): Option<string> {
    match tool
    case CreateTool => CreateSends(params)
    case DropTool => DropSends(s, params)
    case SettingTool => SettingSends(params)
    case Named(_) => None
  }

  // What a statement does to the server on a given link; nothing is sent to a preview.
  function After(s: Server, sent: Option<string>, f: Fault): Server {
    match sent case None => s case Some(text) => Execute(s, text, f).0
  }

  lemma CreateSendsIt(s: Server, params: Value, f: Fault)
    ensures CreateIndexTool(s, params, false, f).0 == After(s, CreateSends(params), f)
  {
  }

  lemma DropSendsIt(s: Server, params: Value, f: Fault)
    ensures DropIndexTool(s, params, false, Runs, f).0 == After(s, DropSends(s, params), f)
  {
  }

  lemma SettingSendsIt(s: Server, params: Value, f: Fault)
    ensures UpdateSettingTool(s, params, false, Runs, f).0 == After(s, SettingSends(params), f)
  {
  }

  lemma CreatePreview(s: Server, params: Value, f: Fault)
    ensures CreateIndexTool(s, params, true, f).0 == s
  {
  }

  lemma DropPreview(s: Server, params: Value, q: Fault, f: Fault)
    ensures DropIndexTool(s, params, true, q, f).0 == s
  {
  }

  lemma SettingPreview(s: Server, params: Value, q: Fault, f: Fault)
    ensures UpdateSettingTool(s, params, true, q, f).0 == s
  {
  }

  lemma UnreadSendsNothing(s: Server, tool: Tool, params: Value, q: Fault, f: Fault)
    requires q != Runs && tool != CreateTool
    ensures RunTool(s, tool, params, false, q, f).0 == s
  {
  }

  /** A reversible tool changes the server by one statement or not at all; a preview, not at
      all; and a call whose before-state could not be read sends nothing. */
  lemma ToolSendsOneStatement(s: Server, tool: Tool, params: Value, dryRun: bool, q: Fault, f: Fault)
    ensures RunTool(s, tool, params, dryRun, q, f).0 ==
            if dryRun || (q != Runs && tool != CreateTool) then s else After(s, Sends(s, tool, params), f)
  {
    if dryRun {
      match tool
      case CreateTool => CreatePreview(s, params, f);
      case DropTool => DropPreview(s, params, q, f);
      case SettingTool => SettingPreview(s, params, q, f);
      case Named(_) =>
    } else if q != Runs && tool != CreateTool {
      UnreadSendsNothing(s, tool, params, q, f);
    } else {
      match tool
      case CreateTool => CreateSendsIt(s, params, f);
      case DropTool => DropSendsIt(s, params, f);
      case SettingTool => SettingSendsIt(s, params, f);
      case Named(_) =>
    }
  }
}
