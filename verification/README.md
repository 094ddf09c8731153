# A verified model of the governance core of postgres-aiops

postgres-aiops lets an agent operate PostgreSQL through governed tools. This project models
the part of it that makes the tools safe to hand out, and proves what that part promises:

* **Audit protocol** (`AuditLog`, `AuditProtocol`): commit a pending row, perform the upstream
  write, settle the row once; on a file that any number of engines share, that is rotated
  underneath them, and whose storage may fail at every step.
* **Wrapper** (`Governed`, `Harness`): budget, pattern consult, write intent, body, undo
  recording, final bookkeeping; for single calls and for whole sequences of them.
* **Reversibility** (`Sql`, `Server`, `Statements`, `IndexDef`, `Remediation`, `Reversal`,
  `UndoStack`, `Ink`, `CutDefinitions`): the statements the reversible writes send, read by a lexer and parser; the
  inverses recorded for them; when a replay restores the server; stacks of writes.
* **Undo executor** (`UndoStore`, `UndoExecutor`, `ClosedLoop`, `GovernedStack`,
  `TokenRuns`): tokens, single use, the closed loop from a governed write to its replay through the same governance,
  and stacks of governed writes undone last to first.
* **Outcome classification** (`Outcome`): from the driver's error to the audit status and the
  exit code.
* **Guards and reads** (`Previews`, `Explain`, `ReadsThatWrite`), **sliding windows** (`Budget`, `Patterns`),
  **lock chains** (`LockChain`), **redaction and sanitizing** (`Json`, `Redaction`, `Sanitize`).

Code that changes things step by step is modelled as classes and methods (`AuditEngine`,
`Governor`, `PgConnection`, `UndoStore`, `BudgetTracker`, `PatternEngine`, `SqlSession`, the
loops of `LockChain`), each proved to be a function of the state before; the properties are
proved about those functions. Time, storage failures, dead links, fresh identifiers and the
results of tool bodies are inputs. Nothing was executed.

## Where the code does less than it says

Each of these is stated as an if-and-only-if, or with the family of inputs that fails.

* `to_regclass` folds case, the quoted `DROP INDEX` does not. The inverse of any successful
  `create_index` call restores the server exactly when the reported name is the index's own,
  no earlier schema on the search path has it, and the name is lower-case or its lower-cased
  form already is an index's (`Reversal.CreateUndoRestoresIff`, `LowerCaseNameIsFoundIff`,
  `MixedCaseNameIsFoundIff`); under other names with capitals it is refused
  (`MixedCaseUndoIsRefused`).
* A definition's name is reported as the gate captured it, and the server folds it if it is
  unquoted (`DefinitionUndoRestoresIff`). So with an unquoted capital the replay never restores,
  and where an index of the unfolded name exists it may drop that one
  (`UnquotedCapitalDropsAnother`, `FooIsDroppedForFoo`).
* `drop_index` under a name with capitals captures the definition of another index. A
  definition with a semicolon in it, in a literal say, is refused on replay; one that has control
  or format characters or is longer than 2000 characters is changed on capture and never brings
  the index back: the replay does nothing or makes another index
  (`CutDefinitions.DropUndoRestoresIff`, `ChangedTextDoes`).
* `create_index` with an `IF NOT EXISTS` definition can succeed without creating anything; its
  recorded inverse then drops an index that was there before, exactly when the name finds one
  (`NoOpCreateUndoIff`), which it does for every plainly named index on the path and its own
  definition (`IfNotExistsUndoDropsTheIndex`).
* The inverse of `update_setting` trusts the settings view: where the server takes the displayed
  value back, it is right exactly when the view agrees with postgresql.auto.conf, and otherwise
  exactly when there was nothing to restore (`SettingUndoRestoresIff`). `$` in the name patterns also
  accepts a final newline, under which the view has no row, so the inverse loses an existing
  pin (`NewlineNameLosesThePin`).
* A token is used at most once only if marking it never fails; an inverse whose response was
  lost also leaves its token usable (`UndoExecutor.SingleUse`, `UnmarkedTokenRunsAgain`,
  `UndeterminedInverseLeavesTheToken`). `undo_apply` itself is audited `ok` and exits zero when
  the inverse returned a failure; its status is the inverse's own exactly when the inverse raised,
  or went through and was marked (`ClosedLoop.UndoApplyAgreesIff`).
* A write whose response was lost leaves no inverse, whether or not it was applied: the wrapper
  can salvage one from before-state, but no tool captures any
  (`TokenRuns.LostWriteHasNoInverse`, `ToolTokensAreVerified`).
* Failures flattened into lists are audited `ok`, and so would be those flattened into strings, a
  shape the decorator offers and no tool uses (`Outcome.OtherShapesHideFailures`);
  so is an error without words (`DictShapeClassifiesIff`). `terminate_backend` and `cancel_query`
  go through `query`, so their lost responses are audited `error`
  (`LostLinkIsUnknownIffExecuted`, `Previews.LostResponses`).
* Archive names are precise to the second and a clash overwrites; cleanup unlinks the newest
  excess archive first, so an error in between leaves a gap
  (`AuditLog.RenameKeepsArchivesIffNameIsFree`, `CleanupLeavesNoGapIff`).
* `deadlockSuspected` is never wrong, but one blocking backend that neither is on nor waits on a
  cycle without a root above it silences it (`LockChain.CyclesAreFlaggedIff`,
  `CycleBesideARootIsMissed`). The chains then list every blocked backend exactly when every cycle
  waits on a root; what they omit is a cycle that stands alone and whatever waits on it
  (`ChainsAreCompleteIff`, `OmittedHangsOnACycle`).
* Preview and real call run one guard, but probe the own pid separately, so they agree only if
  the probes do (`Previews.BackendPreviewAgreesIff`).
* The comment on `explain_query` says that no side effect can persist and names `nextval` and
  locks. Everything outside transaction control persists: sequences, session-level locks, ended
  sessions, reload requests, statistics resets, files and slots; and so does what a statement
  commits to the same database through a connection of its own (`Explain.ExplainIsAReadIff`,
  `LastingEffectsAreNotRolledBack`, `ReadsKeepCommitted`). A ROLLBACK that raises on a live link
  leaves the transaction open, and a later write is lost in it (`TransactionLeftOpenIff`,
  `WriteAfterAStuckRollbackIsLost`). A statement whose leading word is followed by white space
  outside ASCII passes the check with another word than the server reads
  (`CheckedLeaderIsTheServersIff`).
* The statements of `terminate_backend`, `cancel_query` and `reset_query_stats` are SELECTs and
  pass the checks of `explain_query`. Sent that way they do what the governed writes do, audited
  `ok` with no intent row, past the self-lockout guard, on an engine that is blocked, and with no
  row at all if that cannot be written (`ReadsThatWrite.ReadDoesTheWrite`,
  `BlockedEngineStillReads`, `UnrecordedEffect`, `OwnBackendIsUnguarded`).

## Model

| member | source | states |
|---|---|---|
| AuditProtocol.EveryRunKeepsInv | postgres_aiops/governance/audit.py:41-53 | in every world any interleaving of engines reaches: ids number the active file, every running call's pending row is in it under the id the call holds, a rotation under way has no pending row to move |
| AuditProtocol.FinishResolvesItsOwnRow | postgres_aiops/governance/audit.py:238-259 | whatever rotations, failures and other processes did, finishing settles exactly the row that call committed and no other, although ids restart after a rotation |
| AuditProtocol.NoSilentWrite | postgres_aiops/governance/decorators.py:282-296 | an upstream effect happens only with the call's one row committed, pending when the write is sent |
| AuditProtocol.RowsAreSettledOnce | postgres_aiops/governance/audit.py:238-277 | a committed row is never lost, changes status at most once, from pending to a terminal value, and stays its call's only row |
| AuditProtocol.BlockedEngineWritesNothing | postgres_aiops/governance/audit.py:230-236 | over all later steps of all processes a blocked engine stays blocked and none of its later writes has an effect |
| AuditProtocol.LogOnlyGrows | postgres_aiops/governance/audit.py:302-353 | deleted archives, archives and active file, in this order, grow only at the end, apart from settling pending rows in place |
| AuditProtocol.ArchivesAreSettled | postgres_aiops/governance/audit.py:310-317 | every archived row is terminal in every reachable world |
| AuditProtocol.LogIsARun | postgres_aiops/governance/audit.py:161-228 | the atomic log operation is a run of the fine-grained steps with the same store, engine state and id |
| AuditLog.AuditEngine.constructor | postgres_aiops/governance/audit.py:101-124 | opening creates the table if it is missing and starts unblocked; a failure leaves the file alone and the engine unusable |
| AuditLog.AuditEngine.CleanupArchives | postgres_aiops/governance/audit.py:345-353 | the unlink loop removes the excess newest first and stops at the first error |
| AuditLog.AuditEngine.Rotate | postgres_aiops/governance/audit.py:302-343 | a rotation stops where storage fails and never runs with a pending row in the file |
| AuditLog.AuditEngine.WriteRow | postgres_aiops/governance/audit.py:161-228 | rotate, then insert, else count the failure and, if strict, block and raise |
| AuditLog.AuditEngine.BeginWrite | postgres_aiops/governance/audit.py:230-236 | a blocked engine refuses at once; otherwise an id comes back exactly if nothing is raised |
| AuditLog.AuditEngine.FinishWrite | postgres_aiops/governance/audit.py:238-259 | settles the row if exactly one pending row has the id, else blocks the engine and raises |
| AuditLog.AuditEngine.ReconcilePending | postgres_aiops/governance/audit.py:261-277 | marks a pending row unknown and reports whether there was one |
| AuditLog.AuditEngine.ReadHealth | postgres_aiops/governance/audit.py:279-298 | available only if usable, readable and not blocked |
| AuditLog.UpdateHitsItsRow | postgres_aiops/governance/audit.py:243-249 | in a file that numbers its rows the guarded UPDATE hits one row exactly if the row of that id is there and pending |
| AuditLog.RenameKeepsArchivesIffNameIsFree | postgres_aiops/governance/audit.py:318-331 | a rename keeps every archive if and only if its name is not taken |
| AuditLog.CleanupLeavesNoGapIff | postgres_aiops/governance/audit.py:345-353 | what is kept is the newest stretch of the log if and only if cleanup stopped before the first unlink or after the last; the newest five always stay |
| AuditLog.CleanupCanLeaveAGap | postgres_aiops/governance/audit.py:352-353 | seven archives and an error on the second unlink: the second oldest is gone, the oldest stays |
| AuditLog.RotationKeepsHistory | postgres_aiops/governance/audit.py:302-343 | a rotation loses no row, at whatever point it fails |
| AuditLog.LogAppendsAtMostOneRow | postgres_aiops/governance/audit.py:185-228 | a log call leaves the history alone and counts a failure, or appends its one row |
| AuditLog.FailuresBlock | postgres_aiops/governance/audit.py:222-259 | strict failures and failed finishes, and only they, block; a blocked engine begins nothing and is unavailable |
| AuditLog.SummaryHidesThePayload | postgres_aiops/governance/audit.py:452-471 | results that agree on their outcome fields leave the same summary, whatever their payload |
| Governed.Governor.Check | postgres_aiops/governance/decorators.py:250-279 | the pre-check in place: prior state cleared, budget charged or call stopped, patterns consulted fail-open |
| Governed.Governor.Commit | postgres_aiops/governance/decorators.py:282-296 | a guarded write gets its intent or is raised out; previews and low-risk calls get none |
| Governed.Governor.KeepInverse | postgres_aiops/governance/decorators.py:364-386 | the descriptor of the undo callable is stored and its id set on the result, best effort |
| Governed.Governor.RecordInverse | postgres_aiops/governance/decorators.py:320-386 | verified, unverified or no inverse, consuming the captured before-state |
| Governed.Governor.Finish | postgres_aiops/governance/decorators.py:122-137 | what the body's reply does to the call's record |
| Governed.Governor.Conclude | postgres_aiops/governance/decorators.py:402-481 | final status, time spent, outcome report, and the row settled or logged |
| Governed.Governor.Run | postgres_aiops/governance/decorators.py:122-137 | one governed call from pre-check to final bookkeeping: the four stages run in place are `Govern` |
| Harness.HealthyCallWritesOneRow | postgres_aiops/governance/decorators.py:402-481 | with healthy storage every call ends with exactly one new row, its own, carrying its final status; a guarded write leaves the same store as a read that logs once |
| Harness.RowAccounting | postgres_aiops/governance/decorators.py:282-296 | whatever storage step fails, at most one row, its own; pending exactly for a guarded write whose finish failed |
| Harness.EveryRunIsTidy | postgres_aiops/governance/audit.py:192-228 | after any sequence of calls, failing storage or not, the active file numbers its own rows, as the row results require |
| Harness.NoWriteWithoutIntent | postgres_aiops/governance/decorators.py:122-137 | when the body of a guarded write runs, the last row of the file is its own, pending, under the id it holds |
| Harness.BlockingIsForGood | postgres_aiops/governance/audit.py:230-236 | through any sequence of calls a blocked engine stays blocked and unavailable and no guarded body is reached |
| Harness.FailedFinishBlocks | postgres_aiops/governance/audit.py:253-259 | a guarded write whose finish fails raises, whatever its body did, and blocks its engine |
| Harness.TokensAreSound | postgres_aiops/governance/decorators.py:337-386 | a call adds at most one token: verified only from a real, error-free, determined result, unverified only from before-state that same call captured, holding the inverse of exactly that input |
| Harness.EveryTokenIsJustified | postgres_aiops/governance/decorators.py:183-186 | over any sequence of calls every token has a call that vouches for it |
| Harness.OneReportPerArming | postgres_aiops/governance/decorators.py:438-447 | exactly one outcome report if and only if the pattern was armed, success meaning final status ok |
| Harness.CountersAreARun | postgres_aiops/governance/decorators.py:274-279 | the wrapper's pattern counters are those of the pattern engine's run of its own events |
| Harness.BudgetIsARun | postgres_aiops/governance/decorators.py:264-272 | the wrapper's budget is that of the tracker's run of its events |
| Harness.BodiesStayUnderTheBreaker | postgres_aiops/governance/budget.py:137-160 | through the wrapper, no closed window sees more than the configured number of bodies of one fingerprint |
| Harness.ResultIsHandedOn | postgres_aiops/governance/decorators.py:299-317 | the wrapper adds three keys of its own to a result and changes no other |
| Harness.StatusIsOfTheResult | postgres_aiops/governance/decorators.py:409-418 | audit row and caller see the verdict of the result as the tool returned it |
| Harness.RaisingBodyIsAnErrorIff | postgres_aiops/governance/decorators.py:131-137 | a fact about the wrapper alone: a raising body is audited error unless what it raises is itself a budget stop |
| Harness.FlattenedStopIsAnError | postgres_aiops/mcp_server/_shared.py:78-93 | a budget stop inside a tool is flattened before it reaches the wrapper: audited error, exit 1 |
| Json.SetDefaultOnlyFills | postgres_aiops/governance/decorators.py:314-315 | setdefault fills a missing key and touches nothing else |
| UndoTokens.UndoStore.constructor | postgres_aiops/governance/undo.py:75-90 | an empty store, usable unless initialisation failed |
| UndoTokens.UndoStore.Insert | postgres_aiops/governance/undo.py:110-164 | records under a fresh primary key or returns None; never raises |
| UndoTokens.UndoStore.Get | postgres_aiops/governance/undo.py:166-175 | the token of that id, if the store is usable |
| UndoTokens.UndoStore.SetStatus | postgres_aiops/governance/undo.py:196-208 | updates that token only and says whether it was there |
| UndoTokens.RecordedIsFound | postgres_aiops/governance/undo.py:137-161 | a recorded token is found as recorded and no other token changes |
| UndoTokens.MarkedIsFound | postgres_aiops/governance/undo.py:196-208 | marking changes the status of one token and nothing else |
| UndoExecutor.ReplayTarget | postgres_aiops/mcp_server/tools/undo.py:83-106 | a replay runs against the descriptor's target, else the caller's, else the original write's, else the default |
| UndoExecutor.SingleUse | postgres_aiops/mcp_server/tools/undo.py:124-183 | in any run, replays that went through equal failed marks plus one if applied: so at most once unless a mark failed |
| UndoExecutor.AppliedIsTerminal | postgres_aiops/mcp_server/tools/undo.py:126-132 | an applied token stays applied and is never dispatched again with success |
| UndoExecutor.UnmarkedTokenRunsAgain | postgres_aiops/mcp_server/tools/undo.py:179-181 | after a failed mark the same call dispatches the same inverse again |
| UndoExecutor.UndeterminedInverseLeavesTheToken | postgres_aiops/mcp_server/tools/undo.py:178-183 | an inverse whose response was lost leaves its token recorded |
| UndoExecutor.NothingChangesWithoutADispatch | postgres_aiops/mcp_server/tools/undo.py:124-169 | refusals and previews change no token; a preview never dispatches |
| TokenRuns.GovernedSingleUse | postgres_aiops/mcp_server/tools/undo.py:109-183 | the same through the wrapper: over any run of governed tool calls and undo_apply calls, each dispatch a governed call that may leave its own token, a token's inverse goes through as often as marking failed, plus once if it ends up applied |
| TokenRuns.GovernedAppliedIsTerminal | postgres_aiops/mcp_server/tools/undo.py:126-132 | over any such run an applied token stays applied and its inverse never goes through again |
| TokenRuns.ToolTokensAreVerified | postgres_aiops/governance/decorators.py:337-362 | a tool call leaves at most one token and a verified one; the salvage branch is reached by no tool |
| TokenRuns.EveryTokenIsVerified | postgres_aiops/governance/decorators.py:320-386 | over any run of tool calls and undo_apply calls every token is verified |
| TokenRuns.LostWriteHasNoInverse | postgres_aiops/governance/decorators.py:337-362 | a write applied by the server whose response was lost: server changed, audited unknown, exit 2, no token |
| ClosedLoop.TokenTellsTheInverse | postgres_aiops/governance/decorators.py:364-383 | a token under a call's id means the write ran undisturbed and the token holds the inverse of exactly that result |
| ClosedLoop.OutcomesAgreeEndToEnd | postgres_aiops/connection.py:138-152 | each of the nine guarded tools, run through the wrapper: row and exit code give the verdict on the body's own reply, unknown and 2, error and 1, or ok and 0, never a mix |
| ClosedLoop.GovernedPreviewChangesNothing | postgres_aiops/governance/decorators.py:339-346 | a governed preview leaves server and tokens alone |
| ClosedLoop.ReplayRestores | postgres_aiops/mcp_server/tools/undo.py:171-183 | closed loop for one write: undo_apply on the token of a governed write that met its condition dispatches nothing and leaves the server alone, or dispatches; and if that goes through the server is as before the write |
| ClosedLoop.ReplayGoesThrough | postgres_aiops/mcp_server/tools/undo.py:171-183 | and it does go through: an inverse dispatched and reached on a link that lives restores the server and reports success, unless the audit log cannot settle its row |
| ClosedLoop.AppliedIff | postgres_aiops/mcp_server/tools/undo.py:178-183 | a token ends up applied if and only if its inverse was dispatched, went through and could be marked |
| ClosedLoop.UnfinishedDispatchCannotRepeat | postgres_aiops/governance/audit.py:253-259 | a dispatch whose own finish failed leaves the token recorded but cannot be repeated by the blocked engine |
| ClosedLoop.UndoApplyAgreesIff | postgres_aiops/mcp_server/tools/undo.py:171-199 | after a dispatch the governed call's status is error if the inverse raised or could not be marked, ok otherwise; it is the inverse's own verdict if and only if the inverse raised, or went through and was marked; the exit code agrees |
| ClosedLoop.HealthyUndoWritesTwoRows | postgres_aiops/mcp_server/tools/undo.py:109-118 | an applied undo leaves exactly two new settled rows, its own and behind it the inverse's, with no rotation in between |
| GovernedStack.GovernedStackUndone | postgres_aiops/mcp_server/tools/undo.py:171-183 | any number of governed writes through the wrapper, each meeting its condition and leaving a token, undone last to first by undo_apply: if every inverse is dispatched, and reports success or is reached on a link that lives, the server is as at the start; that the tokens last and the server is alike in between is part of the proof |
| UndoStack.StepUndone | postgres_aiops/mcp_server/tools/remediation.py:22-76 | one write that meets its condition: its recorded inverse succeeds and the server is as it was, settings by meaning |
| UndoStack.StackUndone | postgres_aiops/mcp_server/tools/remediation.py:22-76 | any number of such writes undone last to first restore the start |
| UndoStack.PlainCreateIsUndoable | postgres_aiops/ops/remediation.py:207-243 | what a caller can check: a create from table and columns under a free name, its schema first on the path to hold it, succeeds and meets the condition of its inverse if the name is lower-case or its lower-cased form already is an index's |
| UndoStack.CreateIsUndoable | postgres_aiops/ops/remediation.py:207-273 | any create, from arguments or from a definition, that meets the condition on the server before it succeeds, and so is undone |
| UndoStack.PlainDropIsUndoable | postgres_aiops/ops/remediation.py:276-291 | the same for a drop by a lower-case name with a short, clean definition free of semicolons |
| UndoStack.ReloadedSettingIsUndoable | postgres_aiops/ops/remediation.py:353-412 | the same for a setting the server knows, after a reload |
| Reversal.CreateIndexDoes | postgres_aiops/ops/remediation.py:221-236 | the text sent makes the server create exactly the index asked for |
| Reversal.DropIndexDoes | postgres_aiops/ops/remediation.py:284-286 | the text sent drops exactly the name asked for, case kept |
| Reversal.RegClassFolds | postgres_aiops/ops/remediation.py:279-281 | the catalog lookup reads the name in lower case and without a final newline, key words included |
| Reversal.CapturedIsDroppedIff | postgres_aiops/ops/remediation.py:278-286 | the captured index is the dropped one if and only if the name has no capital and no final newline |
| Reversal.CreateUndoRestoresIff | postgres_aiops/ops/remediation.py:207-273 | every successful create_index call, by arguments or definition: if it added an index the recorded drop restores the server if and only if the reported name finds the new index; if it added nothing, if and only if that name finds none; both told from the server before |
| Reversal.LowerCaseNameIsFoundIff | postgres_aiops/mcp_server/tools/remediation.py:25-27 | for lower-case names: the replay finds the index if and only if the table's schema is first on the search path to hold that name |
| Reversal.MixedCaseNameIsFoundIff | postgres_aiops/ops/remediation.py:279-286 | for other names: if and only if, besides, the lower-cased name already was an index's |
| Reversal.UndoFindsIff | postgres_aiops/ops/remediation.py:279-286 | for any index and any reported name: whether the replay finds the created index, as a condition on the server before the create |
| Reversal.MixedCaseUndoIsRefused | postgres_aiops/ops/remediation.py:279-283 | if the lower-cased name was no index's, the inverse is refused and the index stays |
| Reversal.DefinitionUndoRestoresIff | postgres_aiops/ops/remediation.py:246-273 | for every definition that passes the gate and that the server can carry out: the replay restores the server if and only if the captured name is the parsed one and is found |
| Reversal.UnquotedCapitalDropsAnother | postgres_aiops/ops/remediation.py:271-273 | every definition with an unquoted capital in the name: never restored; an older index of the unfolded name is dropped in its place |
| Reversal.FooIsDroppedForFoo | postgres_aiops/ops/remediation.py:271-273 | the concrete input: CREATE INDEX Foo beside an index "Foo" leaves an inverse that drops "Foo" |
| Reversal.NoOpCreateUndoIff | postgres_aiops/ops/remediation.py:248-273 | create_index from an IF NOT EXISTS definition of a taken name returns, leaves the server alone and records a drop, which is harmless if and only if the captured name finds no index |
| Reversal.IfNotExistsUndoDropsTheIndex | postgres_aiops/ops/remediation.py:248-273 | for every plainly named index on the path, its own definition with IF NOT EXISTS changes nothing and leaves an inverse that drops it |
| CutDefinitions.DropUndoRestoresIff | postgres_aiops/ops/remediation.py:246-291 | every successful drop records the captured text; the replay restores the server if and only if the name has no capital or final newline, capture and replay leave the definition as printed (clean, at most 2000 characters, no white space at its end), and it has no semicolon |
| CutDefinitions.ChangedTextDoes | postgres_aiops/ops/remediation.py:246-273 | a definition that capture changed, replayed: nothing happens, or an index of that name is made on the table as stripped with the body read in the rest |
| CutDefinitions.ChangedBodyReadsOtherwise | postgres_aiops/governance/sanitize.py:22-54 | a body that was stripped or trimmed is never read as the body that was printed |
| CutDefinitions.CutBodyReadsOtherwise | postgres_aiops/governance/sanitize.py:22-54 | nor is one that was cut, unless it ends in an ellipsis of its own |
| Reversal.SettingUndoRestoresIff | postgres_aiops/mcp_server/tools/remediation.py:50-76 | for every successful write: an inverse is recorded unless a pinned value is displayed as empty; it succeeds if and only if the server takes the displayed value back; then it restores postgresql.auto.conf by meaning if and only if the view agreed with it, otherwise if and only if there was nothing to restore |
| Reversal.ReloadedViewTells | postgres_aiops/ops/remediation.py:341-350 | after a reload the view agrees for every name without a final newline |
| Reversal.NewlineNameLosesThePin | postgres_aiops/ops/remediation.py:309-314 | a name with a final newline: the inverse is a reset, right only if there was no pin |
| Remediation.PgConnection.RunStatement | postgres_aiops/connection.py:138-152 | a statement runs, is refused, or dies with the link, applied or not, and then the exception says lost |
| Remediation.PgConnection.IndexDefinition | postgres_aiops/ops/remediation.py:279-283 | the definition of the index the name resolves to, or nothing |
| Remediation.PgConnection.CreateIndex | postgres_aiops/ops/remediation.py:207-243 | create_index changes the server in place as specified, with its checks and default name |
| Remediation.PgConnection.DropIndex | postgres_aiops/ops/remediation.py:276-291 | drop_index reads the definition before it drops |
| Remediation.PgConnection.UpdateSetting | postgres_aiops/ops/remediation.py:353-412 | update_setting guards, validates, reads the prior row, then writes |
| Remediation.ToolSendsOneStatement | postgres_aiops/mcp_server/tools/remediation.py:186-337 | a reversible tool changes the server by at most one statement, a preview by none, an unread before-state by none |
| Statements.ParsesCreate | postgres_aiops/ops/remediation.py:235-236 | CREATE INDEX is read as this name on this table with this method and these columns |
| Statements.ParsesDrop | postgres_aiops/ops/remediation.py:284-286 | DROP INDEX is read as exactly the qualified name |
| Statements.ParsesSet | postgres_aiops/ops/remediation.py:388-391 | any value reaches the server as that one value; the statement cannot be made to say anything else |
| Statements.ParsesReset | postgres_aiops/ops/remediation.py:386-387 | RESET is read as that one parameter |
| Statements.ParamIsTheName | postgres_aiops/ops/remediation.py:41-41 | the parameter read is the name, a final newline ignored |
| IndexDef.PrintedDefParses | postgres_aiops/ops/remediation.py:255-268 | the printed definition of an index parses to that very index |
| IndexDef.GateTakesPrintedDef | postgres_aiops/ops/remediation.py:246-252 | the shape gate takes the printed definition of every plainly named index and captures its name |
| IndexDef.GatePasses | postgres_aiops/ops/remediation.py:246-252 | the gate takes every definition of the usual shape, UNIQUE or not, guarded or not, name bare or quoted, and captures the name letter for letter |
| IndexDef.DefTextParses | postgres_aiops/ops/remediation.py:255-273 | the server reads such a definition as exactly that create, with the name folded if bare |
| IndexDef.GatedParsesToCreate | postgres_aiops/ops/remediation.py:246-252 | whatever passes the gate is a CREATE INDEX to the server, if it can be read at all |
| IndexDef.GatedNameIsIdent | postgres_aiops/ops/remediation.py:248-272 | whatever passes the gate, the captured name is a plain identifier |
| Server.SubmitKeepsSane | postgres_aiops/ops/remediation.py:255-268 | whatever text is submitted, indexes stay on tables of their schema with printable definitions |
| Sql.LexQuoteIdent | postgres_aiops/ops/_util.py:66-77 | an accepted identifier is read back verbatim in any context |
| Sql.LexQualify | postgres_aiops/ops/_util.py:80-91 | qualify is read back as exactly the one or two parts of the name |
| Sql.QualifyIsInjective | postgres_aiops/ops/_util.py:80-91 | distinct accepted names stay distinct |
| Sql.LiteralRoundTrip | postgres_aiops/ops/_util.py:94-99 | reading a quoted literal back gives the value, for every string |
| Sql.LexLiteral | postgres_aiops/ops/_util.py:94-99 | and so it does with any text after it that does not start with a quote |
| Sanitize.SanitizedIsCleanAndShort | postgres_aiops/governance/sanitize.py:22-54 | no control or format character survives and the bound holds |
| Sanitize.SanitizeIsIdentityIff | postgres_aiops/governance/sanitize.py:22-54 | a text is left alone if and only if it is clean and fits |
| Sanitize.SanitizeIsIdempotent | postgres_aiops/governance/sanitize.py:22-54 | sanitizing twice is sanitizing once |
| Outcome.MarkedIsUnknown | postgres_aiops/governance/outcome.py:69-79 | marking sets the flag and leaves every other field |
| Outcome.VerdictsAgreeIff | postgres_aiops/cli/_common.py:113-150 | audit status and exit code agree on every result but one whose flag is truthy without being True |
| Outcome.DictShapeClassifiesIff | postgres_aiops/mcp_server/_shared.py:78-93 | a dict-shaped tool is classified rightly exactly unless it fails without words; a lost response is never mistaken |
| Outcome.OtherShapesHideFailures | postgres_aiops/mcp_server/_shared.py:83-86 | failures flattened into lists, and into strings, a shape no tool uses, are audited ok and exit zero |
| Outcome.LostLinkIsUnknownIffExecuted | postgres_aiops/connection.py:114-152 | a dead link is undetermined if and only if the statement went through execute |
| Outcome.AuditedCommandIsTransparent | postgres_aiops/cli/_common.py:185-222 | an audited command ends as it did without the harness, and its row says ok exactly for code zero |
| Previews.PreviewsChangeNothing | postgres_aiops/mcp_server/tools/remediation.py:85-337 | no preview of the nine tools changes the server |
| Previews.LostResponses | postgres_aiops/connection.py:114-152 | a call that only its dead link kept from succeeding is undetermined, unless it signals a backend, where it is an error; nothing else is undetermined |
| Previews.BackendPreviewAgreesIff | postgres_aiops/ops/remediation.py:82-101 | preview and real call report the self-lockout alike if and only if it is another backend or the probes answer alike |
| Previews.OwnBackendSurvives | postgres_aiops/ops/remediation.py:119-152 | the own backend cannot be ended or cancelled as long as a probe answers |
| Previews.SettingPreviewAgrees | postgres_aiops/ops/remediation.py:317-338 | previews and real calls of update_setting are refused for the same names |
| Explain.SqlSession.RunStatement | postgres_aiops/ops/queries.py:149-154 | the statement works on the open transaction; what a rollback cannot revert, and what it commits through other connections, takes hold at once |
| Explain.SqlSession.Explain | postgres_aiops/ops/queries.py:127-156 | BEGIN, EXPLAIN, ROLLBACK in place, the rollback also after an exception; a plain EXPLAIN can lose the link too |
| Explain.ExplainIsAReadIff | postgres_aiops/ops/queries.py:137-156 | committed content changes exactly by what the executed statement commits through another connection; the session is as before if and only if the link survived and, where the statement ran, it had no effect outside its transaction, of whatever kind, and ROLLBACK went through |
| Explain.LastingEffectsAreNotRolledBack | postgres_aiops/ops/queries.py:141-148 | every effect outside the transaction stays after the rollback |
| Explain.TransactionLeftOpenIff | postgres_aiops/ops/queries.py:151-156 | the transaction is left open exactly when ROLLBACK raised on a live link |
| Explain.ReadsKeepCommitted | postgres_aiops/ops/queries.py:127-156 | over any run of reads on one connection, in whatever state, committed content changes only by what statements commit through other connections |
| Explain.WritesAreKept | postgres_aiops/ops/queries.py:149-156 | over any run of reads and writes in which no ROLLBACK sticks, no transaction is left open and exactly the successful writes and the commits of other connections are there |
| Explain.WriteAfterAStuckRollbackIsLost | postgres_aiops/ops/queries.py:151-156 | a write that succeeds after a ROLLBACK that raised is not committed and the next analysing read throws it away |
| ReadsThatWrite.SelectPasses | postgres_aiops/ops/queries.py:93-124 | SELECT of any call that is one statement and not too long passes both checks unchanged |
| ReadsThatWrite.OwnTextPasses | postgres_aiops/ops/queries.py:93-124 | the statements of terminate_backend and cancel_query for every pid, and of reset_query_stats, pass and are executed exactly with analyze and a BEGIN that works |
| ReadsThatWrite.ReadDoesTheWrite | postgres_aiops/ops/queries.py:127-173 | explain_query with such a statement leaves the server as the governed write would, with no row in the log when its body runs, and is audited ok |
| ReadsThatWrite.BlockedEngineStillReads | postgres_aiops/governance/decorators.py:282-296 | on a blocked engine no guarded write runs and the read does if and only if the budget admits it |
| ReadsThatWrite.UnrecordedEffect | postgres_aiops/governance/audit.py:213-228 | if its row cannot be written the read replies as if it had been: log untouched, nothing blocked |
| ReadsThatWrite.OwnBackendIsUnguarded | postgres_aiops/ops/remediation.py:82-101 | where the real call is refused for locking the tool out, the read ends the own backend |
| Explain.CheckedLeaderIsTheServersIff | postgres_aiops/ops/queries.py:112-124 | what passes the check is read by the server as starting with that read-only word if and only if the white space behind the word is ASCII |
| Budget.BudgetTracker.constructor | postgres_aiops/governance/budget.py:85-87 | a fresh tracker has spent nothing |
| Budget.BudgetTracker.CheckAndRecord | postgres_aiops/governance/budget.py:110-164 | the pruning loop and the ceilings give the specified verdict and state |
| Budget.BudgetTracker.AddDuration | postgres_aiops/governance/budget.py:166-171 | only positive time is spent |
| Budget.PruningIsInvisible | postgres_aiops/governance/budget.py:137-160 | the pruned windows give the verdicts of a tracker that never forgets |
| Budget.NoWindowOverflows | postgres_aiops/governance/budget.py:137-160 | no closed window holds more than the maximum of admitted calls of one fingerprint |
| Budget.BreakerBoundsEveryWindow | postgres_aiops/governance/budget.py:110-164 | the same judged by the tracker's own verdicts, and the call total counts exactly the admitted calls under its ceiling |
| Budget.RejectionLeavesNoTrace | postgres_aiops/governance/budget.py:116-158 | a rejected call changes no later verdict |
| Patterns.PatternEngine.constructor | postgres_aiops/governance/patterns.py:108-120 | a fresh engine has no counters |
| Patterns.PatternEngine.Match | postgres_aiops/governance/patterns.py:247-316 | match in place: first armable pattern, cooldown, hourly and daily cap, arming |
| Patterns.PatternEngine.ReportOutcome | postgres_aiops/governance/patterns.py:320-345 | success resets the failures, the threshold starts a cooldown |
| Patterns.CountersTellTheHistory | postgres_aiops/governance/patterns.py:277-345 | a key's counters are the trailing failures, the latest trip's cooldown and the last day's armings of its own history |
| Patterns.CapsHoldInEveryWindow | postgres_aiops/governance/patterns.py:293-313 | no half-open hour or day holds more armings than its cap |
| Patterns.NothingArmsWhileCooling | postgres_aiops/governance/patterns.py:284-291 | nothing arms during the cooldown of any earlier trip |
| Patterns.ArmableIsNotShadowed | postgres_aiops/governance/patterns.py:262-276 | an unarmable pattern never shadows an armable one |
| LockChain.EdgesAreTheUsablePairs | postgres_aiops/ops/analysis.py:228-231 | every usable pair and nothing else becomes an edge |
| LockChain.Descendants | postgres_aiops/ops/analysis.py:191-201 | the stack search returns exactly the pids reachable by one or more edges and terminates with duplicates and cycles |
| LockChain.Index | postgres_aiops/ops/analysis.py:235-246 | the loop builds the wait-for graph and keeps each blocker's first query and state |
| LockChain.Describe | postgres_aiops/ops/analysis.py:261-275 | a root's entry holds all it blocks and its own first query and state |
| LockChain.RankRoots | postgres_aiops/ops/analysis.py:260-276 | every root once, ranked by how many it blocks |
| LockChain.Rca | postgres_aiops/ops/analysis.py:220-289 | the whole report: no blocking, suspected deadlock, or the capped ranking |
| LockChain.NoRootMeansCycle | postgres_aiops/ops/analysis.py:248-258 | blocking without a root means a cycle |
| LockChain.RootNotBelowItself | postgres_aiops/ops/analysis.py:248-262 | a root is not in its own blocked pids |
| LockChain.AcyclicRootsCoverBlocked | postgres_aiops/ops/analysis.py:248-276 | without a cycle there are roots and their chains hold exactly the blocked pids |
| LockChain.ChainsAreCompleteIff | postgres_aiops/ops/analysis.py:248-276 | for every graph: the roots' chains list every blocked backend if and only if every cycle waits on a root |
| LockChain.OmittedHangsOnACycle | postgres_aiops/ops/analysis.py:248-276 | a blocked backend in no chain is on, or waits on, a cycle that no root leads to |
| LockChain.CyclesAreFlaggedIff | postgres_aiops/ops/analysis.py:248-258 | there is no root, hence deadlockSuspected, if and only if every blocking backend is on, or waits on, a cycle that no root leads to |
| LockChain.CycleBesideARootIsMissed | postgres_aiops/ops/analysis.py:248-258 | the concrete input: a cycle beside a root, not flagged |
| LockChain.WorstRootIsMaximal | postgres_aiops/ops/analysis.py:276-280 | the named root blocks at least as many backends as any other |
| Redaction.RedactionHidesExactlyTheSecrets | postgres_aiops/governance/decorators.py:520-543 | two trees redact alike if and only if they differ under sensitive keys alone, so rows and fingerprints cannot depend on a secret |
| Redaction.RedactionKeepsShape | postgres_aiops/governance/decorators.py:520-543 | redaction keeps the shape and is idempotent |
| Redaction.RedactedEntriesAreClean | postgres_aiops/governance/decorators.py:526-534 | every sensitive key, however deep, holds the mask |

## Left out

- SQLite, WAL, permissions, `fcntl`: storage steps commit or fail atomically, and the rotation guard is a lock that spans processes.
- Clocks and environment: time is a non-decreasing input; limits and patterns are fixed.
- Interrupts outside `Exception`, and the async wrapper: the wrapper does not classify the former, and the latter is the same protocol.
- Concurrent `undo_apply` on one token: marking is unconditional, so single use is stated for sequential calls.
- A tool called from another tool shares the captured before-state: only `undo_apply` nests, and its parts are modelled as a call inside a call whose own slot is not read again.
- Identifiers beyond 63 bytes: the server's truncation is not modelled.
- The rest of the server: columns, privileges and locks appear as a server that may refuse any statement; comments, dollar quotes and escape strings are not lexed; temporary schemas are part of the search path if wanted.
- CONCURRENTLY has the same effect on the catalogue; a build that fails halfway is not modelled.
- Spacing of printed definitions: tokens are separated by single spaces, so lengths differ slightly from the server's own text.
- Settings that are lists: their values are taken as one text.
- The undo database: a read of it that raises is one more refusal and is not told apart; its `skill`, `note` and `workflow_id` columns are not kept.
- Several targets: one server at a time; `ReplayTarget` says which one a replay runs against.
- `_plan_node_types`, `slow_query_rca`, `bloat_and_vacuum_analysis`, `human_bytes`, `order_column`, `undo_list` paging: row reshaping that would only add easy members.
- `ConnectionManager`: a cache by target name.
- Message wording, telemetry, YAML loading and reloading of patterns, `policy.py`, `paths.py`, `config.py`, `secretstore.py`, Typer and MCP plumbing.
- Case-insensitive matching of the shape gate beyond ASCII: the Kelvin sign and the long s are not taken for k and s.
- PrintedDefParses: the printed definition here is the whole body; the server's own text leaves out TABLESPACE, so a replayed index loses its tablespace, and says ON ONLY for an index on a partitioned table, which the replay then makes without those of the partitions.
- An unnamed `CREATE INDEX CONCURRENTLY ON t (a)`: it passes the gate with CONCURRENTLY as the captured name and the server names the index itself; here it is a text the parser refuses.
- DropUndoRestoresIff: for names of at most 63 characters, which is all a server keeps; nothing is claimed for a definition that is longer than 2000 characters and ends in an ellipsis of its own, since the cut may then read the same.
- SettingUndoRestoresIff: restores means by the meaning of the values, as the server displays them; the text of the old value is not brought back.
- StackUndone: each write must meet the condition of its inverse when it runs, which is what the if-and-only-if results describe; tools are applied directly, `GovernedStackUndone` is the same through wrapper, tokens and `undo_apply`.
- GovernedStackUndone: between two calls only the settings view changes; that an inverse is dispatched and reached is assumed call by call, since budget, audit and link may each stop it.
- LogOnlyGrows: for runs without clashing archive names and half-done cleanups, which `RenameKeepsArchivesIffNameIsFree` and `CleanupLeavesNoGapIff` show to be necessary.
- EveryRunKeepsInv: reconciling is allowed only for a row whose process no longer executes the write, as the code asks of its operator.
- CapsHoldInEveryWindow: a cap of zero is no cap, as in the code.
