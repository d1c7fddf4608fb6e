/**
 * The execution log of correction scripts: the filter and pagination helpers of
 * its queries, the row normaliser, the bind list of a log entry, and the service
 * that creates the log table once and then issues its queries.
 *
 * The Snowflake driver is not modelled: the service records every query it would
 * hand to the driver, and the rows the driver would return are parameters.
 */
module QueryLog {
  import opened Wrappers
  import opened JsString
  import opened JsValue

  const LOG_TABLE_NAME := "ZLOGS_QUERYS"
  const MAX_PAGE_SIZE := 200

  /** The upper-snake columns of the log table, in `LOG_COLUMNS` order. */
  const LOG_COLUMNS: seq<string> := ["LOG_ID", "EXECUTED_AT", "ACTION_TYPE", "KIND", "SALES_ID", "LINE_NUMBER",
                                     "ENTRY_ID", "EXECUTED_SQL", "ROLLBACK_SQL", "EXECUTED_BY", "EXTRA_METADATA"]

  /** `LOG_COLUMNS` as the module holds it: the columns joined by `, `. */
  const LOG_COLUMN_LIST: string :=
    "LOG_ID, EXECUTED_AT, ACTION_TYPE, KIND, SALES_ID, LINE_NUMBER, ENTRY_ID, EXECUTED_SQL, ROLLBACK_SQL, EXECUTED_BY, EXTRA_METADATA"

  /** The camelCase fields `normalizeLogRow` gives them, in the same order. */
  const LOG_FIELDS: seq<string> := ["logId", "executedAt", "actionType", "kind", "salesId", "lineNumber",
                                    "entryId", "executedSql", "rollbackSql", "executedBy", "extraMetadata"]

  const CREATE_LOG_TABLE_SQL :=
    "\nCREATE TABLE IF NOT EXISTS ZLOGS_QUERYS (\n" +
    "  LOG_ID NUMBER AUTOINCREMENT START 1 INCREMENT 1,\n" +
    "  EXECUTED_AT TIMESTAMP_LTZ DEFAULT CURRENT_TIMESTAMP(),\n" +
    "  ACTION_TYPE STRING,\n  KIND STRING,\n  SALES_ID STRING,\n  LINE_NUMBER NUMBER,\n  ENTRY_ID STRING,\n" +
    "  EXECUTED_SQL STRING,\n  ROLLBACK_SQL STRING,\n  EXECUTED_BY STRING,\n  EXTRA_METADATA VARIANT\n);\n"

  const INSERT_LOG_SQL :=
    "\nINSERT INTO ZLOGS_QUERYS (\n  ACTION_TYPE,\n  KIND,\n  SALES_ID,\n  LINE_NUMBER,\n  ENTRY_ID,\n" +
    "  EXECUTED_SQL,\n  ROLLBACK_SQL,\n  EXECUTED_BY,\n  EXTRA_METADATA\n)\nSELECT ?, ?, ?, ?, ?, ?, ?, ?, PARSE_JSON(?)\n"

  // ---------------------------------------------------------------- filters

  /** The filters of the log listing and count. */
  datatype LogFilters = LogFilters(salesId: Value, actionType: Value, kind: Value, limit: Value, offset: Value)

  /** `v && String(v).trim()`: the trimmed text of a filter that is set, if any. */
  function FilterText(v: Value): (t: Option<string>)
    ensures t.Some? ==> t.value != "" && Truthy(v)
  {
    if Truthy(v) && Trim(ToStr(v)) != "" then Some(Trim(ToStr(v))) else None
  }

  datatype FilterClause = FilterClause(whereClause: string, binds: seq<string>)

  /** The clause of one filter, when it is set. */
  function Clause(t: Option<string>, clause: string): seq<string> {
    if t.Some? then [clause] else []
  }

  /** The bind of one filter, when it is set: its text. */
  function Bind(t: Option<string>): seq<string> {
    if t.Some? then [t.value] else []
  }

  /** The bind of the salesId filter, when it is set: its text as an ILIKE pattern. */
  function PatternBind(t: Option<string>): seq<string> {
    if t.Some? then ["%" + t.value + "%"] else []
  }

  /** The clauses of the set filters, in the order salesId, actionType, kind. */
  function FilterClauses(filters: LogFilters): seq<string> {
    Clause(FilterText(filters.salesId), "SALES_ID ILIKE ?") +
    Clause(FilterText(filters.actionType), "ACTION_TYPE = ?") +
    Clause(FilterText(filters.kind), "KIND = ?")
  }

  /** Their binds, in the same order. */
  function FilterBinds(filters: LogFilters): seq<string> {
    PatternBind(FilterText(filters.salesId)) +
    Bind(FilterText(filters.actionType)) +
    Bind(FilterText(filters.kind))
  }

  /** What `buildLogFilterClause` returns. */
  function LogFilterClause(filters: LogFilters): FilterClause {
    var clauses := FilterClauses(filters);
    FilterClause(if clauses == [] then "" else "WHERE " + Join(clauses, " AND "), FilterBinds(filters))
  }

  /** `buildLogFilterClause({ salesId, actionType, kind })` */
  method BuildLogFilterClause(filters: LogFilters) returns (fc: FilterClause)
    ensures fc == LogFilterClause(filters)
  {
    var clauses: seq<string> := [];
    var binds: seq<string> := [];
    var salesId := FilterText(filters.salesId);
    if salesId.Some? {
      clauses := clauses + ["SALES_ID ILIKE ?"];
      binds := binds + ["%" + salesId.value + "%"];
    }
    assert clauses == Clause(salesId, "SALES_ID ILIKE ?");
    assert binds == PatternBind(salesId);
    var actionType := FilterText(filters.actionType);
    if actionType.Some? {
      clauses := clauses + ["ACTION_TYPE = ?"];
      binds := binds + [actionType.value];
    }
    assert clauses == Clause(salesId, "SALES_ID ILIKE ?") + Clause(actionType, "ACTION_TYPE = ?");
    assert binds == PatternBind(salesId) + Bind(actionType);
    var kind := FilterText(filters.kind);
    if kind.Some? {
      clauses := clauses + ["KIND = ?"];
      binds := binds + [kind.value];
    }
    assert clauses == FilterClauses(filters);
    assert binds == FilterBinds(filters);
    var whereClause := if |clauses| > 0 then "WHERE " + Join(clauses, " AND ") else "";
    fc := FilterClause(whereClause, binds);
  }

  /** One bind per clause; no WHERE clause iff no filter is set; the salesId
      filter, when set, comes first as a `%…%` pattern of its trimmed text; the
      kind filter, when set, comes last as its trimmed text. */
  lemma LogFilterClauseShape(filters: LogFilters)
    ensures var fc := LogFilterClause(filters);
            var n := |FilterClauses(filters)|;
            && |fc.binds| == n <= 3
            && (fc.whereClause == "" <==>
                  FilterText(filters.salesId).None? && FilterText(filters.actionType).None? && FilterText(filters.kind).None?)
            && (FilterText(filters.salesId).Some? ==> fc.binds[0] == "%" + Trim(ToStr(filters.salesId)) + "%")
            && (FilterText(filters.kind).Some? ==> fc.binds[n - 1] == Trim(ToStr(filters.kind)))
            && (n == 1 ==> fc.whereClause == "WHERE " + FilterClauses(filters)[0])
  {
    var s, a, k := FilterText(filters.salesId), FilterText(filters.actionType), FilterText(filters.kind);
    var clauses, binds := FilterClauses(filters), FilterBinds(filters);
    assert |clauses| == |Clause(s, "")| + |Clause(a, "")| + |Clause(k, "")|;
    assert |binds| == |clauses|;
    if k.Some? {
      assert binds[|binds| - 1] == k.value;
    }
  }

  // ---------------------------------------------------------------- pagination

  /** `Number.parseInt(v, 10)`, with NaN as `None`. */
  function ParseIntValue(v: Value): Option<int> {
    ParseInt(ToStr(v))
  }

  /** `sanitizePagination({ limit, offset })` */
  function SanitizePagination(limit: Value, offset: Value): (r: (int, int))
    ensures 1 <= r.0 <= MAX_PAGE_SIZE && r.1 >= 0
    ensures ParseIntValue(limit).None? ==> r.0 == 50
    ensures ParseIntValue(limit).Some? && 1 <= ParseIntValue(limit).value <= MAX_PAGE_SIZE ==> r.0 == ParseIntValue(limit).value
    ensures ParseIntValue(limit).Some? && ParseIntValue(limit).value > MAX_PAGE_SIZE ==> r.0 == MAX_PAGE_SIZE
    ensures ParseIntValue(limit).Some? && ParseIntValue(limit).value < 1 ==> r.0 == 1
    ensures ParseIntValue(offset).None? ==> r.1 == 0
    ensures ParseIntValue(offset).Some? ==> r.1 == if ParseIntValue(offset).value < 0 then 0 else ParseIntValue(offset).value
  {
    var parsedLimit := ParseIntValue(limit);
    var parsedOffset := ParseIntValue(offset);
    var l := if parsedLimit.Some? then parsedLimit.value else 50;
    var safeLimit := Min(Max(l, 1), MAX_PAGE_SIZE);
    var o := if parsedOffset.Some? then parsedOffset.value else 0;
    (safeLimit, Max(o, 0))
  }

  function Min(a: int, b: int): int { if a <= b then a else b }
  function Max(a: int, b: int): int { if a >= b then a else b }

  /** A limit printed as a numeral is kept as it is. */
  lemma SanitizeNumeralLimit(n: nat, offset: Value)
    requires 1 <= n <= MAX_PAGE_SIZE
    ensures SanitizePagination(Str(NatToString(n)), offset).0 == n
  {
    ParseIntNatToString(n);
  }

  // ---------------------------------------------------------------- rows

  /** `normalizeLogRow(row)`: every log column under its camelCase name, null when
      missing. */
  function NormalizeLogRow(row: Record): Record {
    seq(|LOG_FIELDS|, i requires 0 <= i < |LOG_FIELDS| => Field(LOG_FIELDS[i], Coalesce(Get(row, LOG_COLUMNS[i]), Null)))
  }

  /** The normalised row has exactly the camelCase fields, in order; each holds the
      row's value of its column, or null when the column is missing, null or
      undefined. */
  lemma NormalizeLogRowFields(row: Record)
    ensures Keys(NormalizeLogRow(row)) == LOG_FIELDS
    ensures forall i :: 0 <= i < |LOG_FIELDS| ==>
              var v := Get(NormalizeLogRow(row), LOG_FIELDS[i]);
              (Nullish(Get(row, LOG_COLUMNS[i])) ==> v == Null) && (!Nullish(Get(row, LOG_COLUMNS[i])) ==> v == Get(row, LOG_COLUMNS[i]))
  {
    var out := NormalizeLogRow(row);
    LogFieldsDistinct();
    forall i | 0 <= i < |LOG_FIELDS|
      ensures Get(out, LOG_FIELDS[i]) == Coalesce(Get(row, LOG_COLUMNS[i]), Null)
    {
      assert forall j :: 0 <= j < i ==> out[j].key == LOG_FIELDS[j] != LOG_FIELDS[i];
      GetFirst(out, i);
    }
  }

  /** The camelCase field names are distinct. */
  lemma LogFieldsDistinct()
    ensures forall i, j :: 0 <= j < i < |LOG_FIELDS| ==> LOG_FIELDS[j] != LOG_FIELDS[i]
  {
  }

  /** In a record whose keys are distinct, `Get` finds the entry at its position. */
  lemma {:induction false} GetFirst(r: Record, i: nat)
    requires i < |r| && forall j :: 0 <= j < i ==> r[j].key != r[i].key
    ensures Get(r, r[i].key) == r[i].val
  {
    if i > 0 {
      GetFirst(r[1..], i - 1);
    }
  }

  // ---------------------------------------------------------------- log entries

  /** The arguments of `logQueryExecution`; an absent one is `Undef`. */
  datatype LogRequest = LogRequest(actionType: Value, executedSql: Value, rollbackSql: Value, metadata: Value, executedBy: Value)

  /** The binds of the log INSERT, in the column order of `INSERT_LOG_SQL`.
      `logExecutor` is `process.env.LOG_EXECUTOR` and `json` the serialised
      metadata. */
  function LogBinds(req: LogRequest, logExecutor: Value, json: string): seq<Value> {
    var actionType := if req.actionType.Undef? then Str("sql") else req.actionType;
    var rollbackSql := if req.rollbackSql.Undef? then Null else req.rollbackSql;
    var metadata := if req.metadata.Undef? then Obj([]) else req.metadata;
    var executedBy := if req.executedBy.Undef? then Null else req.executedBy;
    [actionType,
     Coalesce(OptProp(metadata, "kind"), Null),
     Coalesce(Coalesce(OptProp(metadata, "salesId"), OptProp(metadata, "SalesId")), Null),
     Coalesce(OptProp(metadata, "lineNumber"), Null),
     Coalesce(Coalesce(Coalesce(OptProp(metadata, "entryId"), OptProp(metadata, "entryID")),
                       OptProp(OptProp(metadata, "preview"), "salesLinePk")), Null),
     req.executedSql,
     Coalesce(Coalesce(rollbackSql, OptProp(metadata, "rollbackSql")), Null),
     Coalesce(Coalesce(Coalesce(executedBy, OptProp(metadata, "executedBy")), logExecutor), Str("ui")),
     Str(json)]
  }

  /** Nine binds, the executed SQL sixth; the entry id is the first of
      `entryId`, `entryID` and `preview.salesLinePk` that is set, and the executor
      the first of the argument, the metadata, `LOG_EXECUTOR` and `'ui'`, so it is
      never null. */
  lemma LogBindsShape(req: LogRequest, logExecutor: Value, json: string)
    ensures var b := LogBinds(req, logExecutor, json);
            var metadata := if req.metadata.Undef? then Obj([]) else req.metadata;
            && |b| == 9 && b[5] == req.executedSql && b[8] == Str(json)
            && (req.actionType.Undef? ==> b[0] == Str("sql"))
            && !Nullish(b[7])
            && (!Nullish(req.executedBy) ==> b[7] == req.executedBy)
            && (Nullish(req.executedBy) && Nullish(OptProp(metadata, "executedBy")) && Nullish(logExecutor) ==> b[7] == Str("ui"))
            && (!Nullish(OptProp(metadata, "entryId")) ==> b[4] == OptProp(metadata, "entryId"))
            && (Nullish(OptProp(metadata, "entryId")) && Nullish(OptProp(metadata, "entryID")) ==>
                  b[4] == Coalesce(OptProp(OptProp(metadata, "preview"), "salesLinePk"), Null))
            && (Nullish(metadata) ==> b[1] == Null && b[2] == Null && b[3] == Null && b[4] == Null)
  {
  }

  /** One query handed to the driver. */
  datatype Query = Query(sql: string, binds: seq<Value>)

  function NumeralOf(n: int): string {
    if n >= 0 then NatToString(n) else "-" + NatToString(-n)
  }

  /** The listing query of `fetchQueryLogs`. */
  function ListSql(whereClause: string, limit: int, offset: int): string {
    "SELECT " + LOG_COLUMN_LIST + "\nFROM " + LOG_TABLE_NAME + "\n" + whereClause +
    "\nORDER BY EXECUTED_AT DESC\nLIMIT " + NumeralOf(limit) + "\nOFFSET " + NumeralOf(offset)
  }

  function StrBinds(binds: seq<string>): (r: seq<Value>)
    ensures |r| == |binds| && forall i :: 0 <= i < |binds| ==> r[i] == Str(binds[i])
  {
    seq(|binds|, i requires 0 <= i < |binds| => Str(binds[i]))
  }

  /** The service module's state: whether the log table is known to exist, and the
      queries issued so far. */
  class QueryLogService {
    var logTableEnsured: bool
    var issued: seq<Query>

    constructor ()
      ensures !logTableEnsured && issued == []
    {
      logTableEnsured := false;
      issued := [];
    }

    /** `ensureLogTableExists()`: the CREATE is issued only while the flag is unset. */
    method EnsureLogTableExists()
      modifies this
      ensures logTableEnsured
      ensures issued == old(issued) + if old(logTableEnsured) then [] else [Query(CREATE_LOG_TABLE_SQL, [])]
    {
      if logTableEnsured {
        return;
      }
      issued := issued + [Query(CREATE_LOG_TABLE_SQL, [])];
      logTableEnsured := true;
    }

    /** `logQueryExecution(req)`: nothing without executed SQL; otherwise the table is
        ensured and one INSERT is issued with the request's binds. */
    method LogQueryExecution(req: LogRequest, logExecutor: Value, stringify: Value -> string)
      modifies this
      ensures !Truthy(req.executedSql) ==> issued == old(issued) && logTableEnsured == old(logTableEnsured)
      ensures Truthy(req.executedSql) ==>
                && logTableEnsured
                && issued == old(issued) + (if old(logTableEnsured) then [] else [Query(CREATE_LOG_TABLE_SQL, [])]) +
                             [Query(INSERT_LOG_SQL, LogBinds(req, logExecutor, stringify(Coalesce(req.metadata, Obj([])))))]
    {
      if !Truthy(req.executedSql) {
        return;
      }
      EnsureLogTableExists();
      var metadata := if req.metadata.Undef? then Obj([]) else req.metadata;
      var jsonMetadata := stringify(Coalesce(metadata, Obj([])));
      issued := issued + [Query(INSERT_LOG_SQL, LogBinds(req, logExecutor, jsonMetadata))];
    }

    /** `fetchQueryLogs(filters)`, given the rows the driver returns. */
    method FetchQueryLogs(filters: LogFilters, rows: seq<Record>) returns (logs: seq<Record>, limit: int, offset: int)
      modifies this
      ensures (limit, offset) == SanitizePagination(filters.limit, filters.offset)
      ensures |logs| == |rows| && forall i :: 0 <= i < |rows| ==> logs[i] == NormalizeLogRow(rows[i])
      ensures logTableEnsured
      ensures var fc := LogFilterClause(filters);
              issued == old(issued) + (if old(logTableEnsured) then [] else [Query(CREATE_LOG_TABLE_SQL, [])]) +
                        [Query(ListSql(fc.whereClause, limit, offset), StrBinds(fc.binds))]
    {
      EnsureLogTableExists();
      var fc := BuildLogFilterClause(filters);
      var page := SanitizePagination(filters.limit, filters.offset);
      limit, offset := page.0, page.1;
      issued := issued + [Query(ListSql(fc.whereClause, limit, offset), StrBinds(fc.binds))];
      logs := seq(|rows|, i requires 0 <= i < |rows| => NormalizeLogRow(rows[i]));
    }

    /** `countQueryLogs(filters)`, given the rows the driver returns. */
    method CountQueryLogs(filters: LogFilters, rows: seq<Record>) returns (total: Option<real>)
      modifies this
      ensures total == ToNumber(Or(if rows == [] then Undef else Get(rows[0], "TOTAL"), Num(0.0)))
      ensures logTableEnsured
      ensures var fc := LogFilterClause(filters);
              issued == old(issued) + (if old(logTableEnsured) then [] else [Query(CREATE_LOG_TABLE_SQL, [])]) +
                        [Query("SELECT COUNT(*) AS TOTAL FROM " + LOG_TABLE_NAME + " " + fc.whereClause, StrBinds(fc.binds))]
    {
      EnsureLogTableExists();
      var fc := BuildLogFilterClause(filters);
      issued := issued + [Query("SELECT COUNT(*) AS TOTAL FROM " + LOG_TABLE_NAME + " " + fc.whereClause, StrBinds(fc.binds))];
      var first := if rows == [] then Undef else Get(rows[0], "TOTAL");
      total := ToNumber(Or(first, Num(0.0)));
    }

    /** `fetchLogById(logId)`, given the rows the driver returns: an id that does not
        parse to a positive integer gives null without touching the table. */
    method FetchLogById(logId: Value, rows: seq<Record>) returns (entry: Option<Record>)
      modifies this
      ensures !PositiveId(logId) ==> entry.None? && issued == old(issued) && logTableEnsured == old(logTableEnsured)
      ensures PositiveId(logId) ==>
                && logTableEnsured
                && issued == old(issued) + (if old(logTableEnsured) then [] else [Query(CREATE_LOG_TABLE_SQL, [])]) +
                             [ByIdQuery(ParseIntValue(logId).value)]
                && entry == if rows == [] then None else Some(NormalizeLogRow(rows[0]))
    {
      var numericId := ParseIntValue(logId);
      if numericId.None? || numericId.value <= 0 {
        return None;
      }
      entry := LookupById(numericId.value, rows);
    }

    /** The lookup once the id is known to be valid. */
    method LookupById(id: int, rows: seq<Record>) returns (entry: Option<Record>)
      modifies this
      ensures logTableEnsured
      ensures issued == old(issued) + (if old(logTableEnsured) then [] else [Query(CREATE_LOG_TABLE_SQL, [])]) + [ByIdQuery(id)]
      ensures entry == if rows == [] then None else Some(NormalizeLogRow(rows[0]))
    {
      EnsureLogTableExists();
      issued := issued + [ByIdQuery(id)];
      entry := if rows == [] then None else Some(NormalizeLogRow(rows[0]));
    }
  }

  /** The id guard of `fetchLogById`. */
  predicate PositiveId(logId: Value) {
    ParseIntValue(logId).Some? && ParseIntValue(logId).value > 0
  }

  /** The lookup of one log entry by its id. */
  function ByIdQuery(id: int): Query {
    Query("SELECT " + LOG_COLUMN_LIST + " FROM " + LOG_TABLE_NAME + " WHERE LOG_ID = ?", [Num(id as real)])
  }

  /** Once the flag is set, ensuring the table again issues nothing: the CREATE is
      issued at most once however often it is requested. */
  method EnsureTwice(service: QueryLogService)
    modifies service
    ensures service.logTableEnsured
    ensures |service.issued| <= |old(service.issued)| + 1
  {
    service.EnsureLogTableExists();
    service.EnsureLogTableExists();
  }
}
