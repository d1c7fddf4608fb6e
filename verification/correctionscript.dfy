/**
 * The correction script generator: from the line reports of the reconciler it
 * proposes an INSERT (with a DELETE rollback) for every line missing in
 * Snowflake, and an UPDATE (with an inverse UPDATE) for every line whose
 * persisted columns differ from the recomputed payload; a line whose recomputed
 * `SALESLINEPK` differs gets a non-actionable notice instead.
 *
 * The target table name, the `DATAAREAID` environment variable and the runtime's
 * date parser are configuration.
 */
module CorrectionScript {
  import opened Wrappers
  import opened JsString
  import opened JsValue
  import opened SalesLinePk
  import opened ProcessedLinePayload
  import opened MismatchAnalysis

  /** What the generator takes from its environment. */
  datatype Config = Config(
    /** The processed sales-line table. */
    table: string,
    /** `process.env.DATAAREAID`, the empty string when unset. */
    dataAreaIdEnv: string,
    /** `new Date(s)` followed by `toISOString()`; `None` for an invalid date. */
    parseDate: string -> Option<string>)

  /** `DEFAULT_DATAAREAID`: the environment variable, or null when unset or empty. */
  function DefaultDataAreaId(config: Config): (v: Value)
    ensures v == Null || (v.Str? && v.s != "")
  {
    Or(Str(config.dataAreaIdEnv), Null)
  }

  // ---------------------------------------------------------------- column types

  datatype ColumnType = NumberColumn | DateColumn | StringColumn

  const NUMBER_COLUMNS: set<string> := {
    "QTY", "SALESPRICE", "ORIGINALPRICE", "LINENUM", "LINECREATIONSEQUENCENUMBER", "LINEAMOUNT",
    "LINEAMOUNTMST", "LINEAMOUNTWITHTAXES", "LINEAMOUNTTAX", "LINEAMOUNTTAXMST", "LINEDISC", "LINEPERCENT",
    "SUMLINEDISC", "SUMLINEDISCMST", "MULTILNDISC", "MULTILNPERCENT", "COSTAMOUNTADJUSTMENT",
    "COSTAMOUNTPOSTED", "COSTAMOUNTPHYSICAL", "DISCPERCENT", "CONTRIBUTIONMARGIN", "CONTRIBUTIONRATIO",
    "TENDERTYPEID", "EXCHRATE", "TAXAMOUNTMST", "ITEMIDSCANNED", "KEYBOARDITEMENTRY", "PRICECHANGE"
  }

  /** `COLUMN_TYPES[column] || 'string'` */
  function TypeOf(column: string): ColumnType {
    if column in NUMBER_COLUMNS then NumberColumn
    else if column == "INVOICEDATE" then DateColumn
    else StringColumn
  }

  const INSERT_EXCLUDED_COLUMNS: set<string> := {"SNOWFLAKE_CREATED_AT", "SNOWFLAKE_UPDATED_AT", "SYNCSTARTDATETIME"}
  const UPDATE_EXCLUDED_COLUMNS: set<string> := {"SALESLINEPK"} + INSERT_EXCLUDED_COLUMNS

  // ---------------------------------------------------------------- literals

  /** `s.slice(0, 10)` */
  function Prefix10(s: string): (r: string)
    ensures |r| == if |s| < 10 then |s| else 10
    ensures r == s[..|r|]
  {
    if |s| <= 10 then s else s[..10]
  }

  /** `normalizeDateInput`: the `YYYY-MM-DD` day of a value, or null. */
  function NormalizeDateInput(value: Value, parseDate: string -> Option<string>): (r: Option<string>)
    ensures r.Some? ==> |r.value| <= 10
  {
    if !Truthy(value) && !value.Num? then None
    else if value.Date? then Some(Prefix10(value.iso))
    else NormalizeDateText(Trim(ToStr(value)), parseDate)
  }

  /** The day of a trimmed text: the parser's day, else its first ten characters,
      and none for blank text. */
  function NormalizeDateText(str: string, parseDate: string -> Option<string>): (r: Option<string>)
    ensures r.Some? ==> |r.value| <= 10
    ensures r.None? <==> str == ""
    ensures str != "" && parseDate(str).None? ==> r == Some(Prefix10(str))
  {
    if str == "" then None
    else match parseDate(str)
      case Some(iso) => Some(Prefix10(iso))
      case None => Some(Prefix10(str))
  }

  /** Falsy values other than 0 have no day; a date object gives the day of its ISO
      form; any other value gives the day the parser finds in its trimmed text, or
      else the first ten characters of that text, and null when the text is blank. */
  lemma NormalizeDateInputCases(value: Value, parseDate: string -> Option<string>)
    ensures var r := NormalizeDateInput(value, parseDate);
            && (!Truthy(value) && !value.Num? ==> r.None?)
            && (value.Date? ==> r == Some(Prefix10(value.iso)))
            && (Truthy(value) && !value.Date? && Trim(ToStr(value)) == "" ==> r.None?)
            && (Truthy(value) && !value.Date? && Trim(ToStr(value)) != "" && parseDate(Trim(ToStr(value))).None? ==>
                  r.Some? && r.value != "" && r.value == Trim(ToStr(value))[..|r.value|])
  {
  }

  /** `escapeSqlString`: the text in single quotes, every inner quote doubled. */
  function EscapeSqlString(s: string): (r: string)
    ensures |r| >= 2 && r[0] == '\'' && r[|r| - 1] == '\''
    ensures |r| == |s| + Count(s, '\'') + 2
  {
    "'" + DoubleChar(s, '\'') + "'"
  }

  /** Un-doubling the interior of an escaped literal gives back the original text
      (section 5.3 of ISO/IEC 9075-2, `<quote symbol>`). */
  lemma EscapeSqlStringRoundTrip(s: string)
    ensures var r := EscapeSqlString(s); UndoubleChar(r[1..|r| - 1], '\'') == Some(s)
  {
    var r := EscapeSqlString(s);
    assert r[1..|r| - 1] == DoubleChar(s, '\'');
    UndoubleDouble(s, '\'');
  }

  /** `formatSqlValue(column, rawValue)` */
  function FormatSqlValue(column: string, value: Value, parseDate: string -> Option<string>): (r: string)
    ensures Nullish(value) ==> r == "NULL"
  {
    if Nullish(value) then "NULL"
    else match TypeOf(column)
      case NumberColumn =>
        (match ToNumber(value) case None => "NULL" case Some(n) => NumberToString(n))
      case DateColumn =>
        (match NormalizeDateInput(value, parseDate) case None => "NULL" case Some(d) => "'" + d + "'::DATE")
      case StringColumn => EscapeSqlString(ToStr(value))
  }

  /** A number column holds a numeral ending in a digit, or NULL when the value is no
      finite number; a whole non-negative amount is its plain decimal numeral and
      reads back as the same number. */
  lemma FormatNumber(column: string, value: Value, parseDate: string -> Option<string>)
    requires TypeOf(column) == NumberColumn && !Nullish(value)
    ensures var r := FormatSqlValue(column, value, parseDate);
            && (ToNumber(value).None? <==> r == "NULL")
            && (ToNumber(value).Some? ==> r != [] && IsDigit(r[|r| - 1]))
            && (value.Num? && value.n == value.n.Floor as real && value.n >= 0.0 ==>
                  r == NatToString(value.n.Floor as nat) && StringToNumber(r) == Some(value.n))
  {
    var r := FormatSqlValue(column, value, parseDate);
    if ToNumber(value).Some? {
      assert r == NumberToString(ToNumber(value).value);
      assert "NULL"[3] == 'L';
    }
    if value.Num? && value.n == value.n.Floor as real && value.n >= 0.0 {
      StringToNumberNatToString(value.n.Floor as nat);
    }
  }

  /** A date column holds the normalised day quoted and cast to DATE, or NULL when
      there is none. */
  lemma FormatDate(value: Value, parseDate: string -> Option<string>)
    requires !Nullish(value)
    ensures var r := FormatSqlValue("INVOICEDATE", value, parseDate);
            match NormalizeDateInput(value, parseDate)
            case None => r == "NULL"
            case Some(d) => r == "'" + d + "'::DATE"
  {
    assert "INVOICEDATE" !in NUMBER_COLUMNS;
  }

  /** Any other column holds a quoted literal that un-escapes to the value's text. */
  lemma FormatString(column: string, value: Value, parseDate: string -> Option<string>)
    requires TypeOf(column) == StringColumn && !Nullish(value)
    ensures var r := FormatSqlValue(column, value, parseDate);
            |r| >= 2 && r[0] == '\'' && r[|r| - 1] == '\'' && UndoubleChar(r[1..|r| - 1], '\'') == Some(ToStr(value))
  {
    EscapeSqlStringRoundTrip(ToStr(value));
  }

  // ---------------------------------------------------------------- comparisons

  /** `normalizeStringValue` */
  function NormalizeStringValue(v: Value): string {
    if Nullish(v) then "" else ToUpper(Trim(ToStr(v)))
  }

  /** `valuesEqual(before, after, column)`; its `normalizeNumber` is the reconciler's
      `normalizeLineNumber`. */
  function ValuesEqual(before: Value, after: Value, column: string, parseDate: string -> Option<string>): bool {
    match TypeOf(column)
    case NumberColumn => NumbersEqual(NormalizeLineNumber(before), NormalizeLineNumber(after))
    case DateColumn => NormalizeDateInput(before, parseDate) == NormalizeDateInput(after, parseDate)
    case StringColumn => NormalizeStringValue(before) == NormalizeStringValue(after)
  }

  /** The number comparison of `valuesEqual`: both blank, or both present and
      within the tolerance. */
  function NumbersEqual(b: Option<real>, a: Option<real>): bool {
    if b.None? && a.None? then true
    else if b.None? || a.None? then false
    else Abs(b.value - a.value) <= NUMBER_TOLERANCE
  }

  /** Every value equals itself, and the comparison does not depend on the order
      of its arguments. */
  lemma ValuesEqualReflexiveSymmetric(x: Value, y: Value, column: string, parseDate: string -> Option<string>)
    ensures ValuesEqual(x, x, column, parseDate)
    ensures ValuesEqual(x, y, column, parseDate) == ValuesEqual(y, x, column, parseDate)
  {
    var a := NormalizeLineNumber(x);
    var b := NormalizeLineNumber(y);
    assert NumbersEqual(a, a);
    assert NumbersEqual(a, b) == NumbersEqual(b, a);
  }

  /** Two amounts in a number column are equal iff they are within the tolerance,
      and a blank amount equals only another blank one. */
  lemma NumbersEqualWithinTolerance(column: string, x: real, y: real, parseDate: string -> Option<string>)
    requires TypeOf(column) == NumberColumn
    ensures ValuesEqual(Num(x), Num(y), column, parseDate) <==> -NUMBER_TOLERANCE <= x - y <= NUMBER_TOLERANCE
    ensures ValuesEqual(Null, Str(""), column, parseDate)
    ensures !ValuesEqual(Null, Num(x), column, parseDate)
  {
  }

  /** null and undefined compare equal to blank text outside number and date
      columns. */
  lemma NullEqualsBlank(column: string, s: string, parseDate: string -> Option<string>)
    requires TypeOf(column) == StringColumn && AllSpace(s)
    ensures ValuesEqual(Null, Str(s), column, parseDate) && ValuesEqual(Undef, Str(s), column, parseDate)
  {
    TrimEmptyIffAllSpace(s);
    assert ToStr(Str(s)) == s;
    assert NormalizeStringValue(Str(s)) == ToUpper("") == "";
    assert NormalizeStringValue(Null) == "" && NormalizeStringValue(Undef) == "";
  }

  // ---------------------------------------------------------------- payload of a line

  /** Kept by `readField`: truthy values and 0. */
  predicate Kept(v: Value) {
    Truthy(v) || v == Num(0.0)
  }

  /** `readField(entity, ...names)`: the first named property that is truthy or 0,
      else null. */
  function ReadField(entity: Value, names: seq<string>): (r: Value)
    ensures Kept(r) || r == Null
  {
    if names == [] then Null
    else if Kept(OptProp(entity, names[0])) then OptProp(entity, names[0])
    else ReadField(entity, names[1..])
  }

  /** `readField` returns the first property it keeps, and null iff it keeps none. */
  lemma {:induction false} ReadFieldFirst(entity: Value, names: seq<string>)
    ensures ReadField(entity, names) == Null <==> forall i :: 0 <= i < |names| ==> !Kept(OptProp(entity, names[i]))
    ensures ReadField(entity, names) != Null ==>
              exists i :: 0 <= i < |names| && ReadField(entity, names) == OptProp(entity, names[i]) &&
                          forall j :: 0 <= j < i ==> !Kept(OptProp(entity, names[j]))
  {
    if names != [] && !Kept(OptProp(entity, names[0])) {
      ReadFieldFirst(entity, names[1..]);
      assert forall i :: 1 <= i < |names| ==> names[i] == names[1..][i - 1];
      if ReadField(entity, names) != Null {
        var i :| 0 <= i < |names[1..]| && ReadField(entity, names) == OptProp(entity, names[1..][i]) &&
                 forall j :: 0 <= j < i ==> !Kept(OptProp(entity, names[1..][j]));
        assert names[i + 1] == names[1..][i];
      }
    }
  }

  /** `line?.odata?.raw || {}` */
  function LineRaw(line: LineReport): (raw: Value)
    ensures !Nullish(raw)
  {
    Or(if line.odata.Some? then line.odata.value.raw else Undef, Obj([]))
  }

  /** The overrides `buildPayloadFromLine` passes, in their literal order. A report
      line always carries a number, so the `readField` fallback for
      `LINECREATIONSEQUENCENUMBER` is never reached. */
  function LineOverrides(line: LineReport, raw: Value, config: Config): Record {
    [Field("LINECREATIONSEQUENCENUMBER", Num(line.lineNumber)),
     Field("LINENUM", ReadField(raw, ["LineNum", "LINENUM", "LineNumber"])),
     Field("DATAAREAID", Or(ReadField(raw, ["dataAreaId", "DATAAREAID"]), DefaultDataAreaId(config)))]
  }

  /** `buildPayloadFromLine(salesId, line)`, with the processed schema's column list
      `columns` (`PROCESSED_COLUMNS`) as a parameter: the OData record handed to
      the payload builder is never null, so the builder cannot throw. */
  function LinePayload(salesId: Value, line: LineReport, config: Config, columns: seq<string>): Record {
    var raw := LineRaw(line);
    var overrides := Obj(LineOverrides(line, raw, config));
    var mapped := MapEntries(Entries(DefaultObject(raw)), columns);
    PayloadFailsIff(mapped, salesId, raw, overrides);
    PayloadSpec(mapped, salesId, raw, overrides).value
  }

  /** When `readField` finds nothing truthy, its first name is not truthy either. */
  lemma ReadFieldFalsy(entity: Value, names: seq<string>)
    requires names != [] && !Truthy(ReadField(entity, names))
    ensures !Truthy(OptProp(entity, names[0]))
  {
  }

  /** The overrides win in the payload of a line: its line number (unless 0, which
      is falsy and may be backfilled), the `readField` line-number alias even when
      that is null, and the data area id or its default; the key is the payload's
      own key. */
  lemma PayloadFromLine(salesId: Value, line: LineReport, config: Config, columns: seq<string>)
    ensures var payload := LinePayload(salesId, line, config, columns);
            var raw := LineRaw(line);
            && (line.lineNumber != 0.0 ==> Get(payload, "LINECREATIONSEQUENCENUMBER") == Num(line.lineNumber))
            && Get(payload, "LINENUM") == ReadField(raw, ["LineNum", "LINENUM", "LineNumber"])
            && Get(payload, "DATAAREAID") == Or(ReadField(raw, ["dataAreaId", "DATAAREAID"]), DefaultDataAreaId(config))
            && Get(payload, "SALESLINEPK") == Str(BuildSalesLinePk(payload))
  {
    var raw := LineRaw(line);
    var ov := LineOverrides(line, raw, config);
    var mapped := MapEntries(Entries(DefaultObject(raw)), columns);
    var names := ["LineNum", "LINENUM", "LineNumber"];
    if !Truthy(ReadField(raw, names)) {
      ReadFieldFalsy(raw, names);
    }
    assert ov[0] == Field("LINECREATIONSEQUENCENUMBER", Num(line.lineNumber));
    PayloadFromOverrides(mapped, salesId, raw, ov);
    var payload := PayloadSpec(mapped, salesId, raw, Obj(ov)).value;
    assert LinePayload(salesId, line, config, columns) == payload;
    if line.lineNumber != 0.0 {
      assert Truthy(ov[0].val);
    }
  }

  /** The overrides land in the prepared payload. */
  lemma PreparedOverrides(mapped: Record, salesId: Value, ov: Record)
    requires |ov| == 3 && ov[0].key == "LINECREATIONSEQUENCENUMBER" && ov[1].key == "LINENUM" && ov[2].key == "DATAAREAID"
    requires !ov[0].val.Undef? && !ov[1].val.Undef? && !ov[2].val.Undef?
    ensures var p := Prepared(mapped, salesId, Obj(ov));
            Get(p, "LINECREATIONSEQUENCENUMBER") == ov[0].val && Get(p, "LINENUM") == ov[1].val && Get(p, "DATAAREAID") == ov[2].val
  {
    var base := ApplySalesId(mapped, salesId);
    assert Entries(DefaultObject(Obj(ov))) == ov;
    ThreeOverrides(base, ov);
  }

  /** Three defined overrides under three distinct keys all land. */
  lemma ThreeOverrides(base: Record, ov: Record)
    requires |ov| == 3 && ov[0].key != ov[1].key && ov[0].key != ov[2].key && ov[1].key != ov[2].key
    requires !ov[0].val.Undef? && !ov[1].val.Undef? && !ov[2].val.Undef?
    ensures var p := ApplyOverrides(base, ov);
            Get(p, ov[0].key) == ov[0].val && Get(p, ov[1].key) == ov[1].val && Get(p, ov[2].key) == ov[2].val
  {
    OverrideWins(base, ov, 2);
    forall j | 1 < j < |ov| ensures ov[j].key != ov[1].key { assert j == 2; }
    OverrideWins(base, ov, 1);
    forall j | 0 < j < |ov| ensures ov[j].key != ov[0].key { assert j == 1 || j == 2; }
    OverrideWins(base, ov, 0);
  }

  /** The same, for any mapped record: a truthy line number stays, a line-number
      alias whose falsity blocks the backfill stays, and the data area id stays. */
  lemma PayloadFromOverrides(mapped: Record, salesId: Value, raw: Value, ov: Record)
    requires !Nullish(raw) && |ov| == 3
    requires ov[0].key == "LINECREATIONSEQUENCENUMBER" && ov[1].key == "LINENUM" && ov[2].key == "DATAAREAID"
    requires !ov[0].val.Undef? && !ov[1].val.Undef? && !ov[2].val.Undef?
    requires !Truthy(ov[1].val) ==> !Truthy(OptProp(raw, "LineNum"))
    ensures PayloadSpec(mapped, salesId, raw, Obj(ov)).Ok?
    ensures var payload := PayloadSpec(mapped, salesId, raw, Obj(ov)).value;
            && (Truthy(ov[0].val) ==> Get(payload, "LINECREATIONSEQUENCENUMBER") == ov[0].val)
            && Get(payload, "LINENUM") == ov[1].val
            && Get(payload, "DATAAREAID") == ov[2].val
            && Get(payload, "SALESLINEPK") == Str(BuildSalesLinePk(payload))
  {
    PayloadFailsIff(mapped, salesId, raw, Obj(ov));
    PreparedOverrides(mapped, salesId, ov);
    PayloadBackfills(mapped, salesId, raw, Obj(ov));
    PayloadKeyStamped(mapped, salesId, raw, Obj(ov));
  }

  // ---------------------------------------------------------------- statements

  /** What a statement's `preview` holds. */
  datatype Preview =
    | PlaceholderPreview(warning: string)
    | InsertPreview(insertPk: string, invoiceId: Value, amount: Value, canal: Value, dataAreaId: Value)
    | PkMismatchPreview(currentPk: Value, nuevoSalesLinePk: Value)
    | UpdatePreview(updatePk: Value, columnas: seq<string>, antes: seq<Value>, despues: seq<Value>)
  {
    /** `preview.salesLinePk` */
    function SalesLinePk(): Value {
      match this
      case PlaceholderPreview(_) => Null
      case InsertPreview(pk, _, _, _, _) => Str(pk)
      case PkMismatchPreview(pk, _) => pk
      case UpdatePreview(pk, _, _, _) => pk
    }
  }

  /** One suggested statement; `entryId` and `actionable` are undefined on inserts. */
  datatype Statement = Statement(kind: string, lineNumber: real, reason: string, entryId: Value, actionable: Value,
                                 sql: string, rollbackSql: string, affectedColumns: seq<string>, preview: Preview)

  const INSERT_PLACEHOLDER_SQL := "-- No se pudo" + " generar INSERT: SALESLINEPK incompleto"
  const NOT_APPLICABLE := "-- N/A"
  const PK_MISMATCH_SQL := "-- No se generó" + " UPDATE porque el SALESLINEPK objetivo difiere del actual. Se recomienda insertar una nueva línea."

  /** `rollbackSql && !rollbackSql.startsWith('-- N/A')`: the statement can be undone. */
  predicate HasRollback(st: Statement) {
    st.rollbackSql != "" && !StartsWith(st.rollbackSql, NOT_APPLICABLE)
  }

  /** A text whose fourth character is not `N` does not open with `-- N/A`. */
  lemma NotApplicableFourth(t: string)
    requires |t| > 3 && t[3] != 'N'
    ensures !StartsWith(t, NOT_APPLICABLE)
  {
  }

  // ---------------------------------------------------------------- inserts

  /** The columns `buildSqlInsertParts` writes: schema order, audit columns and
      undefined values skipped. */
  function InsertColumns(payload: Record, columns: seq<string>): (cols: seq<string>)
    ensures forall c :: c in cols <==> c in columns && c !in INSERT_EXCLUDED_COLUMNS && !Get(payload, c).Undef?
  {
    if columns == [] then []
    else
      var c := columns[|columns| - 1];
      var prefix := columns[..|columns| - 1];
      assert forall x :: x in columns <==> x in prefix || x == c;
      InsertColumns(payload, prefix) + if c in INSERT_EXCLUDED_COLUMNS || Get(payload, c).Undef? then [] else [c]
  }

  /** The formatted values of the given columns. */
  function ColumnValues(record: Record, cols: seq<string>, parseDate: string -> Option<string>): (vals: seq<string>)
    ensures |vals| == |cols|
    ensures forall i :: 0 <= i < |cols| ==> vals[i] == FormatSqlValue(cols[i], Get(record, cols[i]), parseDate)
  {
    seq(|cols|, i requires 0 <= i < |cols| => FormatSqlValue(cols[i], Get(record, cols[i]), parseDate))
  }

  lemma InsertColumnsStep(payload: Record, columns: seq<string>, i: nat)
    requires i < |columns|
    ensures var c := columns[i];
            InsertColumns(payload, columns[..i + 1])
            == InsertColumns(payload, columns[..i]) + if c in INSERT_EXCLUDED_COLUMNS || Get(payload, c).Undef? then [] else [c]
  {
    assert columns[..i + 1][..i] == columns[..i];
  }

  lemma ColumnValuesAppend(record: Record, cols: seq<string>, c: string, parseDate: string -> Option<string>)
    ensures ColumnValues(record, cols + [c], parseDate)
            == ColumnValues(record, cols, parseDate) + [FormatSqlValue(c, Get(record, c), parseDate)]
  {
  }

  /** `buildSqlInsertParts(payload)`, over any column list. */
  method BuildSqlInsertParts(payload: Record, columns: seq<string>, parseDate: string -> Option<string>)
    returns (cols: seq<string>, vals: seq<string>)
    ensures cols == InsertColumns(payload, columns)
    ensures vals == ColumnValues(payload, cols, parseDate)
  {
    cols := [];
    vals := [];
    var i := 0;
    while i < |columns|
      invariant 0 <= i <= |columns|
      invariant cols == InsertColumns(payload, columns[..i])
      invariant vals == ColumnValues(payload, cols, parseDate)
    {
      var column := columns[i];
      InsertColumnsStep(payload, columns, i);
      if column !in INSERT_EXCLUDED_COLUMNS {
        var value := Get(payload, column);
        if !value.Undef? {
          ColumnValuesAppend(payload, cols, column, parseDate);
          cols := cols + [column];
          vals := vals + [FormatSqlValue(column, value, parseDate)];
        }
      }
      i := i + 1;
    }
    assert columns[..i] == columns;
  }

  /** `buildRollbackDelete(salesLinePk)` */
  function RollbackDelete(pk: string, config: Config): string {
    Join([DeleteHeader(pk)] + DeleteBody(pk, config), "\n")
  }

  function DeleteHeader(pk: string): string {
    "-- Rollback de inserción para SalesLinePk " + pk
  }

  function DeleteBody(pk: string, config: Config): seq<string> {
    ["DELETE FROM " + config.table,
     "WHERE SALESLINEPK = " + FormatSqlValue("SALESLINEPK", Str(pk), config.parseDate) + ";"]
  }

  /** The DELETE rollback opens with its comment line, so it is a rollback the
      interface offers. */
  lemma RollbackDeleteOffered(pk: string, config: Config)
    ensures var rb := RollbackDelete(pk, config); rb != "" && !StartsWith(rb, NOT_APPLICABLE)
  {
    assert DeleteHeader(pk)[3] == 'R';
    CommentHeaderOffered(DeleteHeader(pk), DeleteBody(pk, config), "\n");
  }

  /** A text joined after a comment header whose fourth character is not `N` is
      not the `-- N/A` marker. */
  lemma CommentHeaderOffered(header: string, rest: seq<string>, sep: string)
    requires |header| > 3 && header[3] != 'N'
    ensures var t := Join([header] + rest, sep); t != "" && !StartsWith(t, NOT_APPLICABLE)
  {
    JoinPrefix(header, rest, sep);
    var t := Join([header] + rest, sep);
    assert t[3] == t[..|header|][3];
    NotApplicableFourth(t);
  }

  /** `!salesLinePk || !salesLinePk.replace(/-/g, '').trim()`: a key made only of
      hyphens and blanks. */
  predicate IncompleteKey(pk: Value) {
    !Truthy(pk) || Trim(RemoveChar(ToStr(pk), '-')) == ""
  }

  /** The statement `buildInsertStatements` maps a line to, given the line's
      payload and the schema's column list. */
  function InsertFor(line: LineReport, payload: Record, columns: seq<string>, config: Config): Statement {
    var pk := Get(payload, "SALESLINEPK");
    if IncompleteKey(pk) then
      Statement("insert", line.lineNumber, "MISSING_IN_SNOWFLAKE", Undef, Undef,
                INSERT_PLACEHOLDER_SQL, NOT_APPLICABLE, [], PlaceholderPreview("Faltan datos para armar SALESLINEPK"))
    else
      var cols := InsertColumns(payload, columns);
      var vals := ColumnValues(payload, cols, config.parseDate);
      var sql := Join(["-- Inserción sugerida para SalesLinePk " + ToStr(pk),
                       "INSERT INTO " + config.table,
                       "  (" + Join(cols, ", ") + ")",
                       "VALUES",
                       "  (" + Join(vals, ", ") + ");"], "\n");
      Statement("insert", line.lineNumber, "MISSING_IN_SNOWFLAKE", Undef, Undef, sql, RollbackDelete(ToStr(pk), config), [],
                InsertPreview(ToStr(pk), Get(payload, "INVOICEID"), Get(payload, "LINEAMOUNT"),
                              Get(payload, "CANAL"), Get(payload, "DATAAREAID")))
  }

  /** An insert statement is a placeholder without rollback iff the key is made of
      hyphens and blanks; otherwise its rollback deletes the row by its key and its
      preview carries that key. */
  lemma InsertForShape(line: LineReport, payload: Record, columns: seq<string>, config: Config)
    ensures var st := InsertFor(line, payload, columns, config);
            var pk := Get(payload, "SALESLINEPK");
            && st.kind == "insert" && st.reason == "MISSING_IN_SNOWFLAKE" && st.lineNumber == line.lineNumber
            && (HasRollback(st) <==> !IncompleteKey(pk))
            && (IncompleteKey(pk) ==> st.sql == INSERT_PLACEHOLDER_SQL && st.preview.SalesLinePk() == Null)
            && (!IncompleteKey(pk) ==> st.rollbackSql == RollbackDelete(ToStr(pk), config) && st.preview.SalesLinePk() == Str(ToStr(pk)))
  {
    var pk := Get(payload, "SALESLINEPK");
    if IncompleteKey(pk) {
      assert NOT_APPLICABLE[..|NOT_APPLICABLE|] == NOT_APPLICABLE;
    } else {
      RollbackDeleteOffered(ToStr(pk), config);
    }
  }

  /** The lines `buildInsertStatements` keeps. */
  predicate NeedsInsert(line: LineReport) {
    line.status == MissingInSnowflake && line.odata.Some? && Truthy(line.odata.value.raw)
  }

  function InsertCandidates(lines: seq<LineReport>): (kept: seq<LineReport>)
    ensures forall l :: l in kept <==> l in lines && NeedsInsert(l)
  {
    if lines == [] then []
    else
      assert forall l :: l in lines <==> l == lines[0] || l in lines[1..];
      (if NeedsInsert(lines[0]) then [lines[0]] else []) + InsertCandidates(lines[1..])
  }

  /** The kept lines keep their input order: a kept line sits after exactly the
      kept lines before it. */
  lemma {:induction false} InsertCandidatesOrder(lines: seq<LineReport>, i: nat)
    requires i < |lines|
    ensures NeedsInsert(lines[i]) ==>
              |InsertCandidates(lines[..i])| < |InsertCandidates(lines)| &&
              InsertCandidates(lines)[|InsertCandidates(lines[..i])|] == lines[i]
  {
    if i > 0 {
      InsertCandidatesOrder(lines[1..], i - 1);
      assert lines[1..][i - 1] == lines[i];
      assert lines[..i][1..] == lines[1..][..i - 1];
      assert lines[..i][0] == lines[0];
    }
  }

  /** `buildInsertStatements(salesId, lines)` over a schema. */
  function InsertStatements(salesId: Value, lines: seq<LineReport>, config: Config, columns: seq<string>): (statements: seq<Statement>)
    ensures |statements| == |InsertCandidates(lines)|
    ensures forall i :: 0 <= i < |statements| ==>
              var line := InsertCandidates(lines)[i];
              statements[i] == InsertFor(line, LinePayload(salesId, line, config, columns), columns, config)
  {
    var kept := InsertCandidates(lines);
    seq(|kept|, i requires 0 <= i < |kept| => InsertFor(kept[i], LinePayload(salesId, kept[i], config, columns), columns, config))
  }

  /** `buildInsertStatements(salesId, lines)` */
  function BuildInsertStatements(salesId: Value, lines: seq<LineReport>, config: Config): seq<Statement> {
    InsertStatements(salesId, lines, config, PROCESSED_COLUMNS)
  }

  /** The key of a line's payload is the payload's own key, so an insert can be
      undone exactly when some key segment is not blank. */
  lemma InsertStatementKey(salesId: Value, line: LineReport, config: Config, columns: seq<string>)
    ensures var payload := LinePayload(salesId, line, config, columns);
            var st := InsertFor(line, payload, columns, config);
            HasRollback(st) <==> Trim(RemoveChar(BuildSalesLinePk(payload), '-')) != ""
  {
    PayloadFromLine(salesId, line, config, columns);
    InsertKeyRollback(line, LinePayload(salesId, line, config, columns), columns, config);
  }

  /** An insert for a payload stamped with its own key can be undone exactly when
      some key segment is not blank. */
  lemma InsertKeyRollback(line: LineReport, payload: Record, columns: seq<string>, config: Config)
    requires Get(payload, "SALESLINEPK") == Str(BuildSalesLinePk(payload))
    ensures HasRollback(InsertFor(line, payload, columns, config)) <==> Trim(RemoveChar(BuildSalesLinePk(payload), '-')) != ""
  {
    var k := BuildSalesLinePk(payload);
    InsertForShape(line, payload, columns, config);
    assert ToStr(Str(k)) == k;
  }

  // ---------------------------------------------------------------- updates

  /** The columns an UPDATE corrects: schema order, key and audit columns skipped,
      undefined target values skipped, equal values skipped. */
  function DiffColumns(target: Record, current: Record, columns: seq<string>, parseDate: string -> Option<string>): seq<string> {
    if columns == [] then []
    else
      var c := columns[|columns| - 1];
      DiffColumns(target, current, columns[..|columns| - 1], parseDate) + if Corrected(target, current, c, parseDate) then [c] else []
  }

  /** A column the UPDATE sets: not the key nor an audit column, defined in the
      target, and different from the current value. */
  predicate Corrected(target: Record, current: Record, c: string, parseDate: string -> Option<string>) {
    c !in UPDATE_EXCLUDED_COLUMNS && !Get(target, c).Undef? && !ValuesEqual(Get(current, c), Get(target, c), c, parseDate)
  }

  /** One more column on the right of the schema. */
  lemma DiffColumnsStep(target: Record, current: Record, columns: seq<string>, i: nat, parseDate: string -> Option<string>)
    requires i < |columns|
    ensures DiffColumns(target, current, columns[..i + 1], parseDate) ==
            DiffColumns(target, current, columns[..i], parseDate) + if Corrected(target, current, columns[i], parseDate) then [columns[i]] else []
  {
    assert columns[..i + 1][..i] == columns[..i];
  }

  /** One more assignment on the right. */
  lemma AssignmentsStep(record: Record, cols: seq<string>, c: string, parseDate: string -> Option<string>)
    ensures Assignments(record, cols + [c], parseDate) ==
            Assignments(record, cols, parseDate) + [c + " = " + FormatSqlValue(c, Get(record, c), parseDate)]
  {
  }

  /** Exactly the schema columns outside the key and audit columns whose target
      value is defined and differs from the current one are corrected. */
  lemma {:induction false} DiffColumnsMembers(target: Record, current: Record, columns: seq<string>, parseDate: string -> Option<string>)
    ensures forall c :: c in DiffColumns(target, current, columns, parseDate) <==>
              c in columns && c !in UPDATE_EXCLUDED_COLUMNS && !Get(target, c).Undef? &&
              !ValuesEqual(Get(current, c), Get(target, c), c, parseDate)
  {
    if columns != [] {
      var prefix := columns[..|columns| - 1];
      DiffColumnsMembers(target, current, prefix, parseDate);
      assert columns == prefix + [columns[|columns| - 1]];
    }
  }

  /** `column = value` for each column, the value taken from `record`. */
  function Assignments(record: Record, cols: seq<string>, parseDate: string -> Option<string>): (clauses: seq<string>)
    ensures |clauses| == |cols|
    ensures forall i :: 0 <= i < |cols| ==> clauses[i] == cols[i] + " = " + FormatSqlValue(cols[i], Get(record, cols[i]), parseDate)
  {
    seq(|cols|, i requires 0 <= i < |cols| => cols[i] + " = " + FormatSqlValue(cols[i], Get(record, cols[i]), parseDate))
  }

  /** The `PROCESSED_COLUMNS.forEach` of `buildUpdateStatements`, over any column list. */
  method UpdateClauses(target: Record, current: Record, columns: seq<string>, parseDate: string -> Option<string>)
    returns (setClauses: seq<string>, rollbackClauses: seq<string>, affectedColumns: seq<string>)
    ensures affectedColumns == DiffColumns(target, current, columns, parseDate)
    ensures setClauses == Assignments(target, affectedColumns, parseDate)
    ensures rollbackClauses == Assignments(current, affectedColumns, parseDate)
  {
    setClauses, rollbackClauses, affectedColumns := [], [], [];
    var i := 0;
    while i < |columns|
      invariant 0 <= i <= |columns|
      invariant affectedColumns == DiffColumns(target, current, columns[..i], parseDate)
      invariant setClauses == Assignments(target, affectedColumns, parseDate)
      invariant rollbackClauses == Assignments(current, affectedColumns, parseDate)
    {
      var column := columns[i];
      DiffColumnsStep(target, current, columns, i, parseDate);
      if column !in UPDATE_EXCLUDED_COLUMNS {
        var desiredValue := Get(target, column);
        if !desiredValue.Undef? {
          var currentValue := Get(current, column);
          if !ValuesEqual(currentValue, desiredValue, column, parseDate) {
            AssignmentsStep(target, affectedColumns, column, parseDate);
            AssignmentsStep(current, affectedColumns, column, parseDate);
            setClauses := setClauses + [column + " = " + FormatSqlValue(column, desiredValue, parseDate)];
            rollbackClauses := rollbackClauses + [column + " = " + FormatSqlValue(column, currentValue, parseDate)];
            affectedColumns := affectedColumns + [column];
          }
        }
      }
      i := i + 1;
    }
    assert columns[..i] == columns;
  }

  /** The UPDATE text for the given clauses. */
  function UpdateSql(header: string, clauses: seq<string>, currentPk: Value, config: Config): string {
    Join([header,
          "UPDATE " + config.table,
          "SET",
          "  " + Join(clauses, ",\n  "),
          "WHERE SALESLINEPK = " + FormatSqlValue("SALESLINEPK", currentPk, config.parseDate) + ";"], "\n")
  }

  /** The sales id `buildUpdateStatements` passes for a line. */
  function UpdateSalesId(odataRaw: Value, snowRaw: Record): Value {
    Or(Or(OptProp(odataRaw, "SalesId"), Get(snowRaw, "SALESID")), Str(""))
  }

  /** The recomputed payload an update compares a line against. */
  function UpdateTarget(line: LineReport, config: Config, columns: seq<string>): Record
    requires line.snowflake.Some? && line.odata.Some?
  {
    LinePayload(UpdateSalesId(line.odata.value.raw, line.snowflake.value.raw), line, config, columns)
  }

  /** What `buildUpdateStatements` pushes for one line, if anything. */
  function UpdateFor(line: LineReport, config: Config, columns: seq<string>): Option<Statement> {
    if line.snowflake.None? || line.odata.None? || !Truthy(line.odata.value.raw) then None
    else if !Truthy(Get(line.snowflake.value.raw, "SALESLINEPK")) then None
    else UpdateAgainst(line, UpdateTarget(line, config, columns), config, columns)
  }

  /** What `buildUpdateStatements` pushes for a line with a persisted key, once its
      recomputed payload `target` is known. */
  function UpdateAgainst(line: LineReport, target: Record, config: Config, columns: seq<string>): Option<Statement>
    requires line.snowflake.Some?
  {
    var snowRaw := line.snowflake.value.raw;
    var currentPk := Get(snowRaw, "SALESLINEPK");
    if Get(target, "SALESLINEPK") != currentPk then
      Some(Statement("update", line.lineNumber, "PK_MISMATCH", currentPk, Bool(false), PK_MISMATCH_SQL, NOT_APPLICABLE, [],
                     PkMismatchPreview(currentPk, Get(target, "SALESLINEPK"))))
    else
      var cols := DiffColumns(target, snowRaw, columns, config.parseDate);
      if cols == [] then None
      else
        var sql := UpdateSql("-- Corrección sugerida para SalesLinePk " + ToStr(currentPk) + " · Línea " + NumberToString(line.lineNumber),
                             Assignments(target, cols, config.parseDate), currentPk, config);
        var rollbackSql := UpdateSql("-- Rollback de corrección para SalesLinePk " + ToStr(currentPk),
                                     Assignments(snowRaw, cols, config.parseDate), currentPk, config);
        Some(Statement("update", line.lineNumber, StatusName(line.status), currentPk, Bool(true), sql, rollbackSql, cols,
                       UpdatePreview(currentPk, cols,
                                     [Get(snowRaw, "LINEAMOUNT"), Get(snowRaw, "INVOICEID"), Get(snowRaw, "CANAL")],
                                     [Get(target, "LINEAMOUNT"), Get(target, "INVOICEID"), Get(target, "CANAL")])))
  }

  /** The statements of the given lines, in line order. */
  function UpdateStatements(lines: seq<LineReport>, config: Config, columns: seq<string>): seq<Statement> {
    if lines == [] then []
    else
      var last := UpdateFor(lines[|lines| - 1], config, columns);
      UpdateStatements(lines[..|lines| - 1], config, columns) + if last.Some? then [last.value] else []
  }

  /** One line of `buildUpdateStatements`, with its column loop. */
  method UpdateStatementFor(line: LineReport, config: Config, columns: seq<string>) returns (st: Option<Statement>)
    ensures st == UpdateFor(line, config, columns)
  {
    if line.snowflake.None? || line.odata.None? || !Truthy(line.odata.value.raw) {
      return None;
    }
    var snowRaw := line.snowflake.value.raw;
    var currentPk := Get(snowRaw, "SALESLINEPK");
    if !Truthy(currentPk) {
      return None;
    }
    var target := UpdateTarget(line, config, columns);
    if Get(target, "SALESLINEPK") != currentPk {
      return Some(Statement("update", line.lineNumber, "PK_MISMATCH", currentPk, Bool(false), PK_MISMATCH_SQL, NOT_APPLICABLE, [],
                            PkMismatchPreview(currentPk, Get(target, "SALESLINEPK"))));
    }
    var setClauses, rollbackClauses, affectedColumns := UpdateClauses(target, snowRaw, columns, config.parseDate);
    if |setClauses| == 0 {
      return None;
    }
    var sql := UpdateSql("-- Corrección sugerida para SalesLinePk " + ToStr(currentPk) + " · Línea " + NumberToString(line.lineNumber),
                         setClauses, currentPk, config);
    var rollbackSql := UpdateSql("-- Rollback de corrección para SalesLinePk " + ToStr(currentPk), rollbackClauses, currentPk, config);
    return Some(Statement("update", line.lineNumber, StatusName(line.status), currentPk, Bool(true), sql, rollbackSql, affectedColumns,
                          UpdatePreview(currentPk, affectedColumns,
                                        [Get(snowRaw, "LINEAMOUNT"), Get(snowRaw, "INVOICEID"), Get(snowRaw, "CANAL")],
                                        [Get(target, "LINEAMOUNT"), Get(target, "INVOICEID"), Get(target, "CANAL")])));
  }

  /** `buildUpdateStatements(lines)` over a schema. */
  method UpdateStatementsOver(lines: seq<LineReport>, config: Config, columns: seq<string>) returns (statements: seq<Statement>)
    ensures statements == UpdateStatements(lines, config, columns)
  {
    statements := [];
    var i := 0;
    while i < |lines|
      invariant 0 <= i <= |lines|
      invariant statements == UpdateStatements(lines[..i], config, columns)
    {
      var st := UpdateStatementFor(lines[i], config, columns);
      assert lines[..i + 1][..i] == lines[..i];
      if st.Some? {
        statements := statements + [st.value];
      }
      i := i + 1;
    }
    assert lines[..i] == lines;
  }

  /** `buildUpdateStatements(lines)` */
  method BuildUpdateStatements(lines: seq<LineReport>, config: Config) returns (statements: seq<Statement>)
    ensures statements == UpdateStatements(lines, config, PROCESSED_COLUMNS)
  {
    statements := UpdateStatementsOver(lines, config, PROCESSED_COLUMNS);
  }

  /** Against a recomputed payload, a differing key gives one non-actionable notice
      without rollback; otherwise the statement is actionable, keyed by the current
      key, and corrects exactly the differing columns, and there is none when no
      column differs. */
  lemma UpdateAgainstShape(line: LineReport, target: Record, config: Config, columns: seq<string>)
    requires line.snowflake.Some?
    ensures var st := UpdateAgainst(line, target, config, columns);
            var snowRaw := line.snowflake.value.raw;
            && (st.Some? ==> st.value.kind == "update" && st.value.entryId == Get(snowRaw, "SALESLINEPK"))
            && (st.Some? && st.value.actionable == Bool(false) ==>
                  st.value.reason == "PK_MISMATCH" && st.value.affectedColumns == [] && !HasRollback(st.value) &&
                  Get(target, "SALESLINEPK") != Get(snowRaw, "SALESLINEPK"))
            && (st.Some? && st.value.actionable != Bool(false) ==>
                  && st.value.actionable == Bool(true)
                  && Get(target, "SALESLINEPK") == Get(snowRaw, "SALESLINEPK")
                  && st.value.affectedColumns == DiffColumns(target, snowRaw, columns, config.parseDate) != [])
            && (st.None? <==> Get(target, "SALESLINEPK") == Get(snowRaw, "SALESLINEPK") &&
                              DiffColumns(target, snowRaw, columns, config.parseDate) == [])
  {
    var st := UpdateAgainst(line, target, config, columns);
    if st.Some? && st.value.actionable == Bool(false) {
      assert StartsWith(NOT_APPLICABLE, NOT_APPLICABLE);
    }
  }

  /** A line without both raw records or without a persisted key gets nothing; a
      line whose recomputed key differs gets one non-actionable notice without
      rollback; otherwise the statement is actionable, keyed by the current key, and
      corrects exactly the differing columns. */
  lemma UpdateForShape(line: LineReport, config: Config, columns: seq<string>)
    ensures var st := UpdateFor(line, config, columns);
            && (line.snowflake.None? || line.odata.None? || !Truthy(line.odata.value.raw) ==> st.None?)
            && (line.snowflake.Some? && !Truthy(Get(line.snowflake.value.raw, "SALESLINEPK")) ==> st.None?)
            && (st.Some? ==> st.value.kind == "update" && st.value.entryId == Get(line.snowflake.value.raw, "SALESLINEPK"))
            && (st.Some? && st.value.actionable == Bool(false) ==>
                  st.value.reason == "PK_MISMATCH" && st.value.affectedColumns == [] && !HasRollback(st.value) &&
                  Get(UpdateTarget(line, config, columns), "SALESLINEPK") != Get(line.snowflake.value.raw, "SALESLINEPK"))
            && (st.Some? && st.value.actionable != Bool(false) ==>
                  var snowRaw := line.snowflake.value.raw;
                  var target := UpdateTarget(line, config, columns);
                  && st.value.actionable == Bool(true)
                  && Get(target, "SALESLINEPK") == Get(snowRaw, "SALESLINEPK")
                  && st.value.affectedColumns == DiffColumns(target, snowRaw, columns, config.parseDate) != [])
  {
    if line.snowflake.Some? && line.odata.Some? {
      UpdateAgainstShape(line, UpdateTarget(line, config, columns), config, columns);
    }
  }

  /** No column differs when every defined target value equals the current one. */
  lemma DiffColumnsNone(target: Record, current: Record, columns: seq<string>, parseDate: string -> Option<string>)
    requires forall c :: c in columns && !Get(target, c).Undef? ==> ValuesEqual(Get(current, c), Get(target, c), c, parseDate)
    ensures DiffColumns(target, current, columns, parseDate) == []
  {
    DiffColumnsMembers(target, current, columns, parseDate);
  }

  /** A line whose key is unchanged and whose columns all agree gets no UPDATE. */
  lemma NoOpSuppressed(line: LineReport, config: Config, columns: seq<string>)
    requires line.snowflake.Some? && line.odata.Some?
    requires var snowRaw := line.snowflake.value.raw;
             var target := UpdateTarget(line, config, columns);
             Get(target, "SALESLINEPK") == Get(snowRaw, "SALESLINEPK") &&
             forall c :: c in columns && !Get(target, c).Undef? ==> ValuesEqual(Get(snowRaw, c), Get(target, c), c, config.parseDate)
    ensures UpdateFor(line, config, columns).None?
  {
    var target := UpdateTarget(line, config, columns);
    DiffColumnsNone(target, line.snowflake.value.raw, columns, config.parseDate);
    UpdateAgainstShape(line, target, config, columns);
  }
}
