/**
 Stacks of reversible writes: undone last to first, they restore the start.

 Two servers are alike when they differ only in how values of postgresql.auto.conf are
 written and in what the settings view shows. Every tool takes alike servers to alike
 servers, which is what lets one undo be followed by the one before it.
 */
module UndoStack {
  import opened Common
  import opened Json
  import opened Sql
  import opened Server
  import opened Statements
  import opened IndexDef
  import opened Outcome
  import opened Remediation
  import opened Reversal

  ghost predicate Alike(s: Server, t: Server) {
    && s.rels == t.rels && s.path == t.path && s.reserved == t.reserved && s.accepted == t.accepted
    && SameConf(s, s.autoConf, t.autoConf)
  }

  lemma AlikeIsTransitive(a: Server, b: Server, c: Server)
    requires Alike(a, b) && Alike(b, c)
    ensures Alike(a, c) && Alike(b, a)
  {
  }

  lemma RelsAlike(s: Server, t: Server, st: Stmt)
    requires Alike(s, t) && (st.CreateIndex? || st.DropIndex?)
    ensures Exec(t, st).0 == t.(rels := Exec(s, st).0.rels)
    ensures Exec(s, st).0 == s.(rels := Exec(s, st).0.rels)
    ensures Exec(s, st).1 == Exec(t, st).1
  {
    if st.CreateIndex? {
      assert Find(s, st.table) == Find(t, st.table);
    } else {
      assert Find(s, st.which) == Find(t, st.which);
    }
  }

  lemma ConfAlike(s: Server, t: Server, st: Stmt)
    requires Alike(s, t) && (st.AlterSet? || st.AlterReset?)
    ensures Alike(Exec(s, st).0, Exec(t, st).0) && Exec(s, st).1 == Exec(t, st).1
  {
    assert st.AlterReset? ==> Known(s, st.param) == Known(t, st.param);
  }

  lemma ExecAlike(s: Server, t: Server, st: Stmt)
    requires Alike(s, t)
    ensures Alike(Exec(s, st).0, Exec(t, st).0) && Exec(s, st).1 == Exec(t, st).1
  {
    if st.CreateIndex? || st.DropIndex? {
      RelsAlike(s, t, st);
    } else {
      ConfAlike(s, t, st);
    }
  }

  lemma SubmitAlike(s: Server, t: Server, text: string)
    requires Alike(s, t)
    ensures Alike(Submit(s, text).0, Submit(t, text).0) && Submit(s, text).1 == Submit(t, text).1
  {
    var parsed := Parse(Lex(text), s.reserved);
    if parsed.Some? {
      ExecAlike(s, t, parsed.value);
    }
  }

  // One tool call on a healthy link.
  function Apply(s: Server, tool: Tool, params: Value): (Server, Reply) {
    RunTool(s, tool, params, false, Runs, Runs)
  }

  lemma SendsAlike(s: Server, t: Server, tool: Tool, params: Value)
    requires Alike(s, t)
    ensures Sends(s, tool, params) == Sends(t, tool, params)
  {
    if tool == DropTool && Get(params, "name").Str? {
      assert RegClass(s, Get(params, "name").s) == RegClass(t, Get(params, "name").s);
    }
  }

  lemma CreateReturnsIff(s: Server, params: Value)
    ensures CreateIndexTool(s, params, false, Runs).1.Returned? <==> Accepted(s, CreateSends(params))
  {
  }

  lemma DropReturnsIff(s: Server, params: Value)
    ensures DropIndexTool(s, params, false, Runs, Runs).1.Returned? <==> Accepted(s, DropSends(s, params))
  {
  }

  lemma SettingReturnsIff(s: Server, params: Value)
    ensures UpdateSettingTool(s, params, false, Runs, Runs).1.Returned? <==> Accepted(s, SettingSends(params))
  {
  }

  predicate Accepted(s: Server, sent: Option<string>) {
    sent.Some? && Submit(s, sent.value).1
  }

  // A tool returns if it has a statement to send and the server takes it.
  lemma ApplyReturnsIff(s: Server, tool: Tool, params: Value)
    requires !tool.Named?
    ensures Apply(s, tool, params).1.Returned? <==> Accepted(s, Sends(s, tool, params))
  {
    match tool
    case CreateTool => CreateReturnsIff(s, params);
    case DropTool => DropReturnsIff(s, params);
    case SettingTool => SettingReturnsIff(s, params);
  }

  lemma ApplyAlike(s: Server, t: Server, tool: Tool, params: Value)
    requires Alike(s, t)
    ensures Alike(Apply(s, tool, params).0, Apply(t, tool, params).0)
    ensures Apply(s, tool, params).1.Returned? == Apply(t, tool, params).1.Returned?
  {
    ToolSendsOneStatement(s, tool, params, false, Runs, Runs);
    ToolSendsOneStatement(t, tool, params, false, Runs, Runs);
    SendsAlike(s, t, tool, params);
    if !tool.Named? {
      ApplyReturnsIff(s, tool, params);
      ApplyReturnsIff(t, tool, params);
    }
    var sent := Sends(s, tool, params);
    if sent.Some? {
      SubmitAlike(s, t, sent.value);
    }
  }

  // ── one step ────────────────────────────────────────────────────────────

  predicate DropCondition(s: Server, name: string) {
    && WrittenAsRead(name)
    && match Captured(s, name)
       case None => false
       case Some(k) => IsIndex(s, k) && Keeps(PrintDef(s, k)) && ';' !in PrintDef(s, k)
  }

  predicate SettingCondition(s: Server, name: string) {
    var row := PriorRow(s, name);
    match ParamOf(name, s.reserved)
    case None => false
    case Some(p) =>
      && ViewTells(s, name, p)
      && (PinnedRow(row) ==> (p, PriorValue(row)) in s.accepted && PriorValue(row) != "")
  }

  // The statement adds an index, and the replay will find it by the name that is reported.
  predicate CreateCondition(s: Server, params: Value) {
    match Planned(s, params)
    case None => false
    case Some(st) =>
      && st.CreateIndex?
      && match PlannedAt(s, st)
         case None => false
         case Some(k) => k !in s.rels && ReplayFinds(s, ReportedName(params), k)
  }

  // The write succeeds and the condition of its inverse is met, on the server before it.
  ghost predicate Undoable(s: Server, tool: Tool, params: Value) {
    && Apply(s, tool, params).1.Returned? && !tool.Named?
    && (tool == CreateTool ==> CreateCondition(s, params))
    && (tool == DropTool ==> DropCondition(s, Text(Get(params, "name"))))
    && (tool == SettingTool ==> SettingCondition(s, Text(Get(params, "name"))))
  }

  lemma RefusedSubmit(s: Server, text: string)
    ensures !Submit(s, text).1 ==> Submit(s, text).0 == s
  {
  }

  lemma UnacceptedChangesNothing(s: Server, sent: Option<string>)
    ensures !Accepted(s, sent) ==> After(s, sent, Runs) == s
  {
    if sent.Some? {
      RefusedSubmit(s, sent.value);
    }
  }

  // What raised changed nothing, so what changed the server back returned.
  lemma RaisedChangesNothing(s: Server, tool: Tool, params: Value)
    ensures Apply(s, tool, params).1.Raised? ==> Apply(s, tool, params).0 == s
  {
    ToolSendsOneStatement(s, tool, params, false, Runs, Runs);
    if !tool.Named? {
      ApplyReturnsIff(s, tool, params);
      UnacceptedChangesNothing(s, Sends(s, tool, params));
    }
  }

  lemma CreateStep(s: Server, params: Value)
    requires GrammarReserved(s.reserved) && Undoable(s, CreateTool, params)
    ensures var (after, r) := Apply(s, CreateTool, params);
            var d := CreateUndo(r.v);
            && d.Some? && after != s && Apply(after, d.value.tool, d.value.params).0 == s
  {
    CreateUndoRestoresIff(s, params);
  }

  lemma DropOpChanges(s: Server, name: string, concurrently: bool)
    requires GrammarReserved(s.reserved) && DropIndexOp(s, name, concurrently, Runs, Runs).1.Returned?
    ensures DropIndexOp(s, name, concurrently, Runs, Runs).0 != s
  {
    DropSucceeds(s, name, concurrently);
    var d := Find(s, QualifiedName(name)).value;
    assert d in s.rels && d !in (s.rels - {d});
  }

  lemma DropChanges(s: Server, params: Value)
    requires GrammarReserved(s.reserved) && Apply(s, DropTool, params).1.Returned?
    ensures Apply(s, DropTool, params).0 != s
  {
    var name, concurrently := Text(Get(params, "name")), Truthy(Get(params, "concurrently"));
    assert Apply(s, DropTool, params) == DropIndexOp(s, name, concurrently, Runs, Runs);
    DropOpChanges(s, name, concurrently);
  }

  lemma DropStep(s: Server, params: Value)
    requires Sane(s) && Undoable(s, DropTool, params)
    ensures var (after, r) := Apply(s, DropTool, params);
            var d := DropUndo(r.v);
            && d.Some? && Apply(after, d.value.tool, d.value.params).0 == s
  {
    KeptDefinitionRestoresIff(s, Text(Get(params, "name")), Truthy(Get(params, "concurrently")));
  }

  lemma SettingUndone(s: Server, params: Value, name: string, value: Option<string>, reset: bool)
    requires Get(params, "name") == Str(name) && SettingCondition(s, name)
    requires UpdateSettingOp(s, name, value, reset, Runs, Runs).1.Returned?
    ensures var (after, r) := UpdateSettingOp(s, name, value, reset, Runs, Runs);
            var d := SettingUndo(params, r.v);
            && d.Some? && d.value.tool == SettingTool
            && var (end, back) := UpdateSettingTool(after, d.value.params, false, Runs, Runs);
               back.Returned? && Alike(end, s)
  {
    SettingUndoRestoresIff(s, params, name, value, reset);
  }

  lemma SettingStep(s: Server, params: Value)
    requires Undoable(s, SettingTool, params)
    ensures var (after, r) := Apply(s, SettingTool, params);
            var d := SettingUndo(params, r.v);
            && d.Some?
            && var (end, back) := Apply(after, d.value.tool, d.value.params); back.Returned? && Alike(end, s)
  {
    var name := Text(Get(params, "name"));
    var value, reset := OptStr(params, "value"), Truthy(Get(params, "reset"));
    assert Apply(s, SettingTool, params) == UpdateSettingOp(s, name, value, reset, Runs, Runs);
    SettingUndone(s, params, name, value, reset);
  }

  function UndoOf(tool: Tool, params: Value, r: Reply): Option<Descriptor> {
    if r.Returned? then Undo(tool, params, r.v) else None
  }

  // An inverse that changed the server back did not raise.
  lemma ChangedBack(after: Server, d: Descriptor, s: Server)
    requires after != s && Apply(after, d.tool, d.params).0 == s
    ensures Apply(after, d.tool, d.params).1.Returned?
  {
    RaisedChangesNothing(after, d.tool, d.params);
  }

  /** One write and its recorded inverse: the inverse goes through and the server is as it was. */
  lemma StepUndone(s: Server, tool: Tool, params: Value)
    requires Sane(s) && Undoable(s, tool, params)
    ensures var (after, r) := Apply(s, tool, params);
            var d := UndoOf(tool, params, r);
            && d.Some?
            && var (end, back) := Apply(after, d.value.tool, d.value.params); back.Returned? && Alike(end, s)
  {
    var (after, r) := Apply(s, tool, params);
    if tool == CreateTool {
      CreateStep(s, params);
      ChangedBack(after, UndoOf(tool, params, r).value, s);
    } else if tool == DropTool {
      DropStep(s, params);
      DropChanges(s, params);
      ChangedBack(after, UndoOf(tool, params, r).value, s);
    } else if tool == SettingTool {
      SettingStep(s, params);
    }
  }

  // ── what a caller can check beforehand ──────────────────────────────────

  // The arguments of a create from table and columns, as the tool sees them.
  predicate PlainCreate(params: Value) {
    && !Given(OptStr(params, "definition")) && Given(OptStr(params, "table")) && Columns(params) != []
    && var cols := NonBlank(Columns(params));
       CreateArgsOk(OptStr(params, "table").value, cols,
                    IndexName(OptStr(params, "table").value, cols, OptStr(params, "name")),
                    MethodOf(OptStr(params, "method")))
  }

  function CreatedName(params: Value): string
    requires PlainCreate(params)
  {
    IndexName(OptStr(params, "table").value, NonBlank(Columns(params)), OptStr(params, "name"))
  }

  // The table is found, the name is free in its schema and on the path before it.
  predicate RoomFor(s: Server, table: string, index: string) {
    && Qualify(table).Success?
    && match Find(s, QualifiedName(table))
       case None => false
       case Some(t) =>
         t in s.rels && s.rels[t].Table? && (t.0, index) !in s.rels && FirstOnPath(s.rels, s.path, (t.0, index))
  }

  /** A create, by arguments or by definition, that meets the condition also succeeds. */
  lemma CreateIsUndoable(s: Server, params: Value)
    requires CreateCondition(s, params)
    ensures Undoable(s, CreateTool, params)
  {
    CreateToolSubmits(s, params);
    ExecCreate(s, Planned(s, params).value);
  }

  lemma PlainCreatePlans(s: Server, params: Value)
    requires GrammarReserved(s.reserved) && PlainCreate(params)
    ensures Planned(s, params).Some? && ReportedName(params) == CreatedName(params)
    ensures var st := Planned(s, params).value;
            st.CreateIndex? && st.name == CreatedName(params) && st.table == QualifiedName(OptStr(params, "table").value)
  {
    var table, cols, m := OptStr(params, "table").value, NonBlank(Columns(params)), MethodOf(OptStr(params, "method"));
    if m.Some? {
      MethodIsLower(m.value);
    }
    ParsesCreate(Truthy(Get(params, "unique")), Truthy(Get(params, "concurrently")), CreatedName(params), table, m, cols,
                 s.reserved);
  }

  /** A create from table and columns under a free name, with the table's schema first on the
      search path to hold it, succeeds and meets the condition of its inverse, if the name is
      lower-case or its lower-cased form already is an index's. */
  lemma PlainCreateIsUndoable(s: Server, params: Value)
    requires GrammarReserved(s.reserved) && PlainCreate(params)
    requires RoomFor(s, OptStr(params, "table").value, CreatedName(params))
    requires WrittenAsRead(CreatedName(params)) || Captured(s, CreatedName(params)).Some?
    ensures Undoable(s, CreateTool, params)
  {
    PlainCreatePlans(s, params);
    CreateIsUndoable(s, params);
  }

  lemma FoundAsWritten(s: Server, name: string)
    requires Qualify(name).Success? && WrittenAsRead(name) && Captured(s, name).Some?
    ensures Find(s, QualifiedName(name)) == Captured(s, name)
  {
    RegClassFolds(s, name);
    FoldedPartsMatch(name);
  }

  lemma DropOpSucceeds(s: Server, name: string, concurrently: bool)
    requires GrammarReserved(s.reserved) && Qualify(name).Success? && WrittenAsRead(name) && Captured(s, name).Some?
    ensures DropIndexOp(s, name, concurrently, Runs, Runs).1.Returned?
  {
    FoundAsWritten(s, name);
    DropIndexDoes(s, name, concurrently);
  }

  /** A drop under a lower-case name whose captured definition is short, clean and free of
      semicolons succeeds and meets the condition of its inverse. */
  lemma PlainDropIsUndoable(s: Server, params: Value, name: string)
    requires Sane(s) && Get(params, "name") == Str(name) && Qualify(name).Success? && DropCondition(s, name)
    ensures Undoable(s, DropTool, params)
  {
    var concurrently := Truthy(Get(params, "concurrently"));
    DropOpSucceeds(s, name, concurrently);
    DropApplies(s, params, name);
  }

  lemma DropApplies(s: Server, params: Value, name: string)
    requires Get(params, "name") == Str(name)
    ensures Apply(s, DropTool, params) == DropIndexOp(s, name, Truthy(Get(params, "concurrently")), Runs, Runs)
  {
  }

  lemma SettingSucceeds(s: Server, name: string, value: Option<string>, reset: bool, p: string)
    requires MatchesParam(name) && !LocksOut(name) && ParamOf(name, s.reserved) == Some(p)
    requires if reset then Known(s, p) else value.Some? && (p, value.value) in s.accepted
    ensures UpdateSettingOp(s, name, value, reset, Runs, Runs).1.Returned?
  {
    if reset {
      ParsesReset(name, s.reserved);
    } else {
      ParsesSet(name, value.value, s.reserved);
    }
  }

  /** After a reload, setting or resetting a parameter the server knows, under a name without
      a final newline, succeeds and meets the condition of its inverse, if the server takes
      back what it displays and displays something. */
  lemma ReloadedSettingIsUndoable(s: Server, params: Value, name: string, p: string)
    requires Reloaded(s) && Get(params, "name") == Str(name)
    requires MatchesParam(name) && !EndsInNewline(name) && !LocksOut(name) && ParamOf(name, s.reserved) == Some(p)
    requires if Truthy(Get(params, "reset")) then Known(s, p)
             else OptStr(params, "value").Some? && (p, OptStr(params, "value").value) in s.accepted
    requires var row := PriorRow(s, name);
             PinnedRow(row) ==> (p, PriorValue(row)) in s.accepted && PriorValue(row) != ""
    ensures Undoable(s, SettingTool, params)
  {
    ReloadedViewTells(s, name);
    SettingSucceeds(s, name, OptStr(params, "value"), Truthy(Get(params, "reset")), p);
  }

  // ── stacks ──────────────────────────────────────────────────────────────

  // A write, and what the settings view showed when it ran.
  datatype Write = Write(tool: Tool, params: Value, view: map<string, Setting>)

  function Seen(s: Server, w: Write): Server {
    s.(view := w.view)
  }

  // The server after the writes, and the inverses recorded, in order.
  function Forward(s: Server, ws: seq<Write>): (Server, seq<Descriptor>)
    decreases |ws|
  {
    if ws == [] then (s, [])
    else
      var w := ws[|ws| - 1];
      var (s1, ds) := Forward(s, ws[..|ws| - 1]);
      var (s2, r) := Apply(Seen(s1, w), w.tool, w.params);
      var d := UndoOf(w.tool, w.params, r);
      (s2, if d.Some? then ds + [d.value] else ds)
  }

  ghost predicate AllUndoable(s: Server, ws: seq<Write>)
    decreases |ws|
  {
    ws == [] ||
    var w := ws[|ws| - 1];
    AllUndoable(s, ws[..|ws| - 1]) && Undoable(Seen(Forward(s, ws[..|ws| - 1]).0, w), w.tool, w.params)
  }

  // The inverses applied last to first.
  function Unwind(s: Server, ds: seq<Descriptor>): Server
    decreases |ds|
  {
    if ds == [] then s
    else Unwind(Apply(s, ds[|ds| - 1].tool, ds[|ds| - 1].params).0, ds[..|ds| - 1])
  }

  lemma {:induction false} UnwindAlike(s: Server, t: Server, ds: seq<Descriptor>)
    requires Alike(s, t)
    ensures Alike(Unwind(s, ds), Unwind(t, ds))
    decreases |ds|
  {
    if ds != [] {
      var d := ds[|ds| - 1];
      ApplyAlike(s, t, d.tool, d.params);
      UnwindAlike(Apply(s, d.tool, d.params).0, Apply(t, d.tool, d.params).0, ds[..|ds| - 1]);
    }
  }

  lemma ApplyKeepsSane(s: Server, tool: Tool, params: Value)
    requires Sane(s)
    ensures Sane(Apply(s, tool, params).0)
  {
    ToolSendsOneStatement(s, tool, params, false, Runs, Runs);
    var sent := Sends(s, tool, params);
    if sent.Some? {
      SubmitKeepsSane(s, sent.value);
    }
  }

  lemma {:induction false} ForwardKeepsSane(s: Server, ws: seq<Write>)
    requires Sane(s)
    ensures Sane(Forward(s, ws).0)
  {
    if ws != [] {
      var w := ws[|ws| - 1];
      ForwardKeepsSane(s, ws[..|ws| - 1]);
      var s1 := Forward(s, ws[..|ws| - 1]).0;
      SameCatalogueSane(s1, Seen(s1, w));
      ApplyKeepsSane(Seen(s1, w), w.tool, w.params);
    }
  }

  lemma UnwindLast(s: Server, ds: seq<Descriptor>, d: Descriptor)
    ensures Unwind(s, ds + [d]) == Unwind(Apply(s, d.tool, d.params).0, ds)
  {
    assert (ds + [d])[..|ds|] == ds;
  }

  /** Any number of writes, each meeting its condition when it ran, undone last to first:
      the server is as it was at the start. */
  lemma {:induction false} StackUndone(s: Server, ws: seq<Write>)
    requires Sane(s) && AllUndoable(s, ws)
    ensures var (end, ds) := Forward(s, ws); |ds| == |ws| && Alike(Unwind(end, ds), s)
  {
    if ws != [] {
      var w := ws[|ws| - 1];
      var (s1, ds) := Forward(s, ws[..|ws| - 1]);
      StackUndone(s, ws[..|ws| - 1]);
      ForwardKeepsSane(s, ws[..|ws| - 1]);
      var seen := Seen(s1, w);
      SameCatalogueSane(s1, seen);
      StepUndone(seen, w.tool, w.params);
      var (s2, r) := Apply(seen, w.tool, w.params);
      var d := UndoOf(w.tool, w.params, r).value;
      var undone := Apply(s2, d.tool, d.params).0;
      UnwindLast(s2, ds, d);
      UnwindAlike(undone, s1, ds);
      AlikeIsTransitive(Unwind(undone, ds), Unwind(s1, ds), s);
    }
  }
}
