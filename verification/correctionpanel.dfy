/** The data-correction panel: which suggested statements may be run or rolled
    back from the browser, and the confirm/execute cycle with its history. */
module CorrectionPanel {
  import opened Wrappers
  import opened JsString
  import opened JsValue
  import opened CorrectionScript
  import opened MismatchAnalysis

  /** Opening of the comment a statement carries when no script was generated. */
  const NOT_GENERATED := "-- No se gener\U{00F3}"
  /** How many executions the history keeps. */
  const HISTORY_LIMIT := 20

  datatype ActionType = SqlAction | RollbackAction

  // ---------------------------------------------------------------- statement keys

  /** `statement.kind || 'unknown'` */
  function KindText(st: Statement): string {
    if st.kind == "" then "unknown" else st.kind
  }

  /** `statement.entryId || statement.preview?.salesLinePk || statement.lineNumber || ''` */
  function BaseId(st: Statement): Value {
    Or(Or(Or(st.entryId, st.preview.SalesLinePk()), Num(st.lineNumber)), Str(""))
  }

  /** `buildStatementKey(statement)`: kind, base identifier and the SQL with its
      blanks collapsed, joined by `|`. */
  function StatementKey(st: Statement): (key: string)
    ensures StartsWith(key, KindText(st) + "|")
    ensures EndsWith(key, Trim(CollapseSpaces(st.sql)))
  {
    var kind, base, sql := KindText(st), ToStr(BaseId(st)), Trim(CollapseSpaces(st.sql));
    JoinedKeyEnds(kind, base, sql);
    kind + "|" + base + "|" + sql
  }

  lemma JoinedKeyEnds(kind: string, base: string, sql: string)
    ensures StartsWith(kind + "|" + base + "|" + sql, kind + "|")
    ensures EndsWith(kind + "|" + base + "|" + sql, sql)
  {
    var key := kind + "|" + base + "|" + sql;
    assert key == (kind + "|") + (base + "|" + sql);
    assert key[..|kind + "|"|] == kind + "|";
    assert key[|key| - |sql|..] == sql;
  }

  /** Two `|`-free texts that each open a string followed by `|` are the same. */
  lemma BarPrefix(key: string, ka: string, kb: string)
    requires '|' !in ka && '|' !in kb
    requires StartsWith(key, ka + "|") && StartsWith(key, kb + "|")
    ensures ka == kb
  {
    assert key[|ka|] == (ka + "|")[|ka|] == '|';
    assert key[|kb|] == (kb + "|")[|kb|] == '|';
    assert forall i :: 0 <= i < |ka| ==> key[i] == (ka + "|")[i] == ka[i];
    assert forall i :: 0 <= i < |kb| ==> key[i] == (kb + "|")[i] == kb[i];
    assert forall i :: 0 <= i < |ka| ==> ka[i] == key[i] == kb[i];
  }

  /** Kinds without a `|` are told apart by the key. */
  lemma KeySeparatesKinds(a: Statement, b: Statement)
    requires '|' !in a.kind && '|' !in b.kind
    requires StatementKey(a) == StatementKey(b)
    ensures KindText(a) == KindText(b)
  {
    NoBarInKind(a);
    NoBarInKind(b);
    BarPrefix(StatementKey(a), KindText(a), KindText(b));
  }

  lemma NoBarInKind(st: Statement)
    requires '|' !in st.kind
    ensures '|' !in KindText(st)
  {
    if st.kind == "" {
      assert KindText(st) == "unknown";
      assert forall i :: 0 <= i < |"unknown"| ==> "unknown"[i] != '|';
    }
  }

  // ---------------------------------------------------------------- history

  datatype HistoryEntry = HistoryEntry(actionType: ActionType, statement: Statement)

  /** `executedSqlKeys`: the keys of the statements whose SQL (not rollback) ran. */
  function ExecutedSqlKeys(history: seq<HistoryEntry>): set<string> {
    set e | e in history && e.actionType == SqlAction :: StatementKey(e.statement)
  }

  /** `[historyEntry, ...prev].slice(0, 20)` */
  function Recorded(history: seq<HistoryEntry>, entry: HistoryEntry): (r: seq<HistoryEntry>)
    ensures |r| == if |history| < HISTORY_LIMIT then |history| + 1 else HISTORY_LIMIT
    ensures r[0] == entry
    ensures forall i :: 1 <= i < |r| ==> r[i] == history[i - 1]
  {
    var next := [entry] + history;
    if |next| <= HISTORY_LIMIT then next else next[..HISTORY_LIMIT]
  }

  /** `canRollbackStatement(statement)`: anything but an insert, or an insert whose
      SQL is in the history. */
  function CanRollback(st: Option<Statement>, history: seq<HistoryEntry>): bool {
    match st
    case None => false
    case Some(s) => s.kind != "insert" || StatementKey(s) in ExecutedSqlKeys(history)
  }

  /** Once an insert has run it can be rolled back, whatever the history held. */
  lemma ExecutedInsertCanRollback(st: Statement, history: seq<HistoryEntry>)
    ensures CanRollback(Some(st), Recorded(history, HistoryEntry(SqlAction, st)))
  {
    var h := Recorded(history, HistoryEntry(SqlAction, st));
    assert h[0] in h;
  }

  // ---------------------------------------------------------------- card predicates

  /** `isActionable` on a statement card. */
  predicate IsActionable(st: Statement) {
    st.actionable != Bool(false) && !StartsWith(st.sql, NOT_GENERATED)
  }

  /** The SQL an action runs: the rollback script or the statement's own. */
  function ChosenSql(st: Statement, action: ActionType): string {
    if action == RollbackAction then st.rollbackSql else st.sql
  }

  // ---------------------------------------------------------------- requests

  datatype Refusal = NotExecutable | NotAvailable | RollbackBlocked

  datatype RequestOutcome = NoStatement | Refused(reason: Refusal) | Confirming

  /** What `requestExecution` does with a statement and an action. */
  function RequestOutcomeOf(st: Option<Statement>, action: ActionType, history: seq<HistoryEntry>): RequestOutcome {
    match st
    case None => NoStatement
    case Some(s) =>
      if action == SqlAction && (s.actionable == Bool(false) || StartsWith(s.sql, NOT_GENERATED)) then Refused(NotExecutable)
      else if ChosenSql(s, action) == "" || StartsWith(ChosenSql(s, action), NOT_APPLICABLE) then Refused(NotAvailable)
      else if action == RollbackAction && !CanRollback(st, history) then Refused(RollbackBlocked)
      else Confirming
  }

  /** The run button of a card leads to confirmation exactly when the card shows
      the statement as actionable and it carries SQL. */
  lemma SqlRequestAcceptedIff(st: Statement, history: seq<HistoryEntry>)
    ensures RequestOutcomeOf(Some(st), SqlAction, history) == Confirming
        <==> IsActionable(st) && st.sql != "" && !StartsWith(st.sql, NOT_APPLICABLE)
  {
  }

  /** The rollback button leads to confirmation exactly when the card shows a
      rollback and, for an insert, its SQL already ran in this session. */
  lemma RollbackRequestAcceptedIff(st: Statement, history: seq<HistoryEntry>)
    ensures RequestOutcomeOf(Some(st), RollbackAction, history) == Confirming
        <==> HasRollback(st) && (st.kind != "insert" || StatementKey(st) in ExecutedSqlKeys(history))
  {
  }

  /** An accepted rollback of an insert has a matching executed insert in the history. */
  lemma RollbackOfInsertFollowsItsSql(st: Statement, history: seq<HistoryEntry>)
    requires st.kind == "insert" && RequestOutcomeOf(Some(st), RollbackAction, history) == Confirming
    ensures exists i :: 0 <= i < |history| && history[i].actionType == SqlAction
                        && StatementKey(history[i].statement) == StatementKey(st)
  {
    var e :| e in history && e.actionType == SqlAction && StatementKey(e.statement) == StatementKey(st);
    var i :| 0 <= i < |history| && history[i] == e;
  }

  /** The insert placeholder for an incomplete key carries no `actionable` flag and
      its comment does not open with the "not generated" text, so the panel lets its
      comment through as runnable SQL; only its rollback is refused. */
  lemma PlaceholderInsertPassesGate(line: LineReport, payload: Record, columns: seq<string>, config: Config, history: seq<HistoryEntry>)
    requires IncompleteKey(Get(payload, "SALESLINEPK"))
    ensures var st := InsertFor(line, payload, columns, config);
            && IsActionable(st)
            && RequestOutcomeOf(Some(st), SqlAction, history) == Confirming
            && RequestOutcomeOf(Some(st), RollbackAction, history) == Refused(NotAvailable)
  {
    var st := InsertFor(line, payload, columns, config);
    assert st.sql == INSERT_PLACEHOLDER_SQL;
    assert INSERT_PLACEHOLDER_SQL[9] != NOT_GENERATED[9];
    assert INSERT_PLACEHOLDER_SQL[4] != NOT_APPLICABLE[4];
    assert st.rollbackSql[..|NOT_APPLICABLE|] == NOT_APPLICABLE;
  }

  /** A key-mismatch update, whose SQL is the "not generated" comment, is never run. */
  lemma MismatchCommentNotExecutable(st: Statement, history: seq<HistoryEntry>)
    requires st.sql == PK_MISMATCH_SQL
    ensures !IsActionable(st)
    ensures RequestOutcomeOf(Some(st), SqlAction, history) == Refused(NotExecutable)
  {
    assert PK_MISMATCH_SQL[..|NOT_GENERATED|] == NOT_GENERATED;
  }

  // ---------------------------------------------------------------- counts

  datatype Corrections = Corrections(inserts: seq<Statement>, updates: seq<Statement>)

  /** How many updates are flagged `actionable: false`. */
  function NotActionableCount(updates: seq<Statement>): (n: nat)
    ensures n <= |updates|
    ensures n == 0 <==> forall u :: u in updates ==> u.actionable != Bool(false)
  {
    if updates == [] then 0
    else (if updates[0].actionable == Bool(false) then 1 else 0) + NotActionableCount(updates[1..])
  }

  /** `updates.filter((update) => update?.actionable !== false)` */
  function ActionableUpdates(updates: seq<Statement>): (r: seq<Statement>)
    ensures |r| == |updates| - NotActionableCount(updates)
    ensures forall u :: u in r <==> u in updates && u.actionable != Bool(false)
    ensures forall u :: multiset(r)[u] == if u.actionable != Bool(false) then multiset(updates)[u] else 0
  {
    if updates == [] then []
    else
      assert updates == [updates[0]] + updates[1..];
      (if updates[0].actionable != Bool(false) then [updates[0]] else []) + ActionableUpdates(updates[1..])
  }

  datatype Stats = Stats(inserts: nat, updates: nat)

  /** `stats`: every insert counts, placeholders included; updates count unless
      flagged as not actionable. */
  function StatsOf(corrections: Option<Corrections>): (s: Stats)
    ensures corrections.None? ==> s == Stats(0, 0)
    ensures corrections.Some? ==> s.inserts == |corrections.value.inserts|
    ensures corrections.Some? ==> s.updates == |corrections.value.updates| - NotActionableCount(corrections.value.updates)
    ensures corrections.Some? && (forall u :: u in corrections.value.updates ==> u.actionable != Bool(false))
            ==> s.updates == |corrections.value.updates|
  {
    match corrections
    case None => Stats(0, 0)
    case Some(c) =>
      AllActionableKept(c.updates);
      Stats(|c.inserts|, |ActionableUpdates(c.updates)|)
  }

  lemma {:induction false} AllActionableKept(updates: seq<Statement>)
    ensures (forall u :: u in updates ==> u.actionable != Bool(false)) ==> ActionableUpdates(updates) == updates
  {
    if updates != [] && forall u :: u in updates ==> u.actionable != Bool(false) {
      assert updates[0].actionable != Bool(false) by { assert updates[0] in updates; }
      assert forall u :: u in updates[1..] ==> u.actionable != Bool(false) by {
        forall u | u in updates[1..] ensures u in updates { }
      }
      AllActionableKept(updates[1..]);
      assert [updates[0]] + updates[1..] == updates;
    }
  }

  // ---------------------------------------------------------------- panel state

  datatype PendingAction = PendingAction(statement: Statement, actionType: ActionType)

  /** What the panel posts to the custom-query endpoint. */
  datatype ExecRequest = ExecRequest(query: string, rollbackSql: string, actionType: ActionType)

  class Panel {
    var pending: Option<PendingAction>
    var isExecuting: bool
    var history: seq<HistoryEntry>
    /** `executionGuardRef.current` */
    var guard: bool

    predicate Valid()
      reads this
    {
      |history| <= HISTORY_LIMIT
    }

    constructor()
      ensures Valid()
      ensures pending == None && !isExecuting && history == [] && !guard
    {
      pending := None;
      isExecuting := false;
      history := [];
      guard := false;
    }

    /** `requestExecution(statement, actionType)`: only the pending action may change. */
    method RequestExecution(st: Option<Statement>, action: ActionType) returns (outcome: RequestOutcome)
      modifies this
      ensures outcome == RequestOutcomeOf(st, action, old(history))
      ensures pending == (if outcome == Confirming then Some(PendingAction(st.value, action)) else old(pending))
      ensures history == old(history) && isExecuting == old(isExecuting) && guard == old(guard)
    {
      outcome := RequestOutcomeOf(st, action, history);
      if outcome == Confirming {
        pending := Some(PendingAction(st.value, action));
      }
    }

    /** The confirm button, up to the request: a no-op without a pending action or
        while one runs; an empty script only clears the pending action; otherwise
        the guard is raised and the request is returned. */
    method StartPendingAction() returns (request: Option<ExecRequest>)
      requires Valid()
      modifies this
      ensures Valid()
      ensures history == old(history)
      ensures old(pending).None? || old(guard) ==>
                request.None? && pending == old(pending) && guard == old(guard) && isExecuting == old(isExecuting)
      ensures old(pending).Some? && !old(guard) && ChosenSql(old(pending).value.statement, old(pending).value.actionType) == "" ==>
                request.None? && pending.None? && !guard && isExecuting == old(isExecuting)
      ensures old(pending).Some? && !old(guard) && ChosenSql(old(pending).value.statement, old(pending).value.actionType) != "" ==>
                var p := old(pending).value;
                && request == Some(ExecRequest(ChosenSql(p.statement, p.actionType), p.statement.rollbackSql, p.actionType))
                && guard && isExecuting && pending == old(pending)
    {
      if pending.None? || guard {
        return None;
      }
      var p := pending.value;
      var sqlText := ChosenSql(p.statement, p.actionType);
      if sqlText == "" {
        pending := None;
        return None;
      }
      guard := true;
      isExecuting := true;
      request := Some(ExecRequest(sqlText, p.statement.rollbackSql, p.actionType));
    }

    /** The rest of the confirm handler once the request settles: a success is
        recorded first in the history; either way the guard, the busy flag and the
        pending action are cleared. */
    method FinishPendingAction(succeeded: bool)
      requires Valid() && guard && pending.Some?
      modifies this
      ensures Valid()
      ensures !guard && !isExecuting && pending.None?
      ensures succeeded ==> history == Recorded(old(history), HistoryEntry(old(pending).value.actionType, old(pending).value.statement))
      ensures !succeeded ==> history == old(history)
    {
      if succeeded {
        history := Recorded(history, HistoryEntry(pending.value.actionType, pending.value.statement));
      }
      guard := false;
      isExecuting := false;
      pending := None;
    }
  }

  /** Confirming twice while the first run is in flight sends one request. */
  method DoubleConfirm(panel: Panel) returns (first: Option<ExecRequest>, second: Option<ExecRequest>)
    requires panel.Valid() && panel.pending.Some? && !panel.guard
    requires ChosenSql(panel.pending.value.statement, panel.pending.value.actionType) != ""
    modifies panel
    ensures first.Some? && second.None?
    ensures panel.guard && panel.pending == old(panel.pending)
  {
    first := panel.StartPendingAction();
    second := panel.StartPendingAction();
  }
}
