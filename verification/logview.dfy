/** The execution-log view: how a stored log row is described in words, whether
    it offers a rollback, and how the list is paged and filtered. */
module LogView {
  import opened Wrappers
  import opened JsString
  import opened JsValue

  // ---------------------------------------------------------------- metadata

  /** `typeof v === 'object'`, `null` included. */
  predicate TypeofObject(v: Value) { v.Null? || IsObjectLike(v) }

  /** `parseMetadata(raw)`, with `JSON.parse` as `parseJson` (`None` when it throws).
      A wrapped value that is not an object is parsed again, once at most, since
      what it wraps is a primitive. */
  function ParseMetadata(raw: Value, parseJson: string -> Option<Value>): (r: Value)
    ensures !Truthy(raw) ==> r == Obj([])
    ensures Truthy(raw) && IsObjectLike(raw) && OptProp(raw, "value") == Undef ==> r == raw
    ensures Truthy(raw) && IsObjectLike(raw) && TypeofObject(OptProp(raw, "value"))
            ==> r == Coalesce(OptProp(raw, "value"), Obj([]))
    ensures Truthy(raw) && raw.Str? ==> r == parseJson(raw.s).GetOr(Obj([]))
    ensures raw.Num? || raw.Bool? ==> r == Obj([])
    decreases if IsObjectLike(raw) then 1 else 0
  {
    if !Truthy(raw) then Obj([])
    else if IsObjectLike(raw) then
      var inner := OptProp(raw, "value");
      if inner != Undef then
        if TypeofObject(inner) then Coalesce(inner, Obj([])) else ParseMetadata(inner, parseJson)
      else raw
    else if raw.Str? then parseJson(raw.s).GetOr(Obj([]))
    else Obj([])
  }

  /** A wrapper whose `value` is a JSON text yields the parsed text; one whose
      `value` is a number or a boolean yields an empty object. */
  lemma ParseMetadataUnwraps(raw: Value, parseJson: string -> Option<Value>)
    requires raw.Obj? && !TypeofObject(OptProp(raw, "value")) && OptProp(raw, "value") != Undef
    ensures var inner := OptProp(raw, "value");
            && (inner.Str? && inner.s != "" ==> ParseMetadata(raw, parseJson) == parseJson(inner.s).GetOr(Obj([])))
            && (!inner.Str? || inner.s == "" ==> ParseMetadata(raw, parseJson) == Obj([]))
  {
  }

  /** Metadata is `null` only when a stored JSON text is `null`. */
  lemma MetadataNullOnlyFromText(raw: Value, parseJson: string -> Option<Value>)
    requires ParseMetadata(raw, parseJson) == Null
    ensures exists s :: parseJson(s) == Some(Null)
  {
    if Truthy(raw) && IsObjectLike(raw) {
      var inner := OptProp(raw, "value");
      assert inner.Str? && parseJson(inner.s) == Some(Null);
    } else {
      assert raw.Str? && parseJson(raw.s) == Some(Null);
    }
  }

  // ---------------------------------------------------------------- numbers and labels

  /** `toNumeric(value)`: `Number(value)` when finite. As `Number` reads them,
      `null`, `false`, `''` and blank strings come out as 0. */
  function ToNumeric(v: Value): (r: Option<real>)
    ensures v.Num? ==> r == Some(v.n)
    ensures v.Str? ==> r == StringToNumber(v.s)
    ensures v.Undef? || v.Obj? ==> r.None?
    ensures v.Null? ==> r == Some(0.0)
  {
    if v.Num? then Some(v.n) else ToNumber(v)
  }

  /** `${value}` of an array: `join(sep)`, nullish items as empty text. */
  function ItemsText(items: seq<Value>, sep: string): string {
    Join(seq(|items|, i requires 0 <= i < |items| => if Nullish(items[i]) then "" else ToStr(items[i])), sep)
  }

  /** `describeColumns(columns)` */
  function DescribeColumns(columns: Value): (r: Option<string>)
    ensures r.None? <==> !columns.Arr? || columns.items == []
    ensures columns.Arr? && |columns.items| == 1 ==> r == Some("la columna " + ToStr(columns.items[0]))
    ensures columns.Arr? && |columns.items| > 1
            ==> r == Some(NatToString(|columns.items|) + " columnas (" + ItemsText(columns.items, ", ") + ")")
  {
    if !columns.Arr? || columns.items == [] then None
    else if |columns.items| == 1 then Some("la columna " + ToStr(columns.items[0]))
    else Some(NatToString(|columns.items|) + " columnas (" + ItemsText(columns.items, ", ") + ")")
  }

  const LINE := "la l\U{00ED}nea "
  const ORDER := "el pedido "
  const ANY_TARGET := "los datos seleccionados"

  /** The line part of a target label: the entry label if truthy, else the number. */
  function LineText(entryLabel: Value, lineNumber: Option<real>): (r: Option<string>)
    ensures r.Some? <==> Truthy(entryLabel) || lineNumber.Some?
    ensures r.Some? ==> StartsWith(r.value, LINE)
  {
    if Truthy(entryLabel) then Some(LINE + ToStr(entryLabel))
    else if lineNumber.Some? then Some(LINE + NumberToString(lineNumber.value))
    else None
  }

  /** The order part of a target label: the order id when truthy. */
  function OrderText(salesId: Value): Option<string> {
    if Truthy(salesId) then Some(ToStr(salesId)) else None
  }

  /** The label from its line and order parts. */
  function LabelFrom(lineText: Option<string>, order: Option<string>): string {
    if lineText.Some? && order.Some? then lineText.value + " del pedido " + order.value
    else if lineText.Some? then lineText.value
    else if order.Some? then ORDER + order.value
    else ANY_TARGET
  }

  /** `formatTargetLabel({ entryLabel, lineNumber, salesId })` */
  function FormatTargetLabel(entryLabel: Value, lineNumber: Option<real>, salesId: Value): string {
    LabelFrom(LineText(entryLabel, lineNumber), OrderText(salesId))
  }

  /** A label names a line exactly when it has a line part, and it names the order
      whenever there is one: at its end, after the line or on its own. */
  lemma LabelMentions(lineText: Option<string>, order: Option<string>)
    requires lineText.Some? ==> StartsWith(lineText.value, LINE)
    ensures var r := LabelFrom(lineText, order);
            && (StartsWith(r, LINE) <==> lineText.Some?)
            && (order.Some? ==> EndsWith(r, " del pedido " + order.value) || r == ORDER + order.value)
            && (lineText.None? && order.None? ==> r == ANY_TARGET)
  {
    var r := LabelFrom(lineText, order);
    if lineText.Some? {
      if order.Some? {
        var tail := " del pedido " + order.value;
        assert r == lineText.value + tail;
        assert r[..|LINE|] == lineText.value[..|LINE|];
        assert r[|r| - |tail|..] == tail;
      }
    } else if order.Some? {
      assert r[3] != LINE[3];
    } else {
      assert r[3] != LINE[3];
    }
  }

  /** `formatTargetLabel` prefers the entry label, then a line number, each followed
      by the order when there is one; without a line it names the order, and without
      either it falls back to a generic label. */
  lemma TargetLabelCases(entryLabel: Value, lineNumber: Option<real>, salesId: Value)
    ensures var r := FormatTargetLabel(entryLabel, lineNumber, salesId);
            && (StartsWith(r, LINE) <==> Truthy(entryLabel) || lineNumber.Some?)
            && (Truthy(entryLabel) ==> StartsWith(r, LINE + ToStr(entryLabel)))
            && (Truthy(salesId) ==> EndsWith(r, " del pedido " + ToStr(salesId)) || r == ORDER + ToStr(salesId))
            && (!Truthy(entryLabel) && lineNumber.None? && !Truthy(salesId) ==> r == ANY_TARGET)
  {
    var lineText := LineText(entryLabel, lineNumber);
    LabelMentions(lineText, OrderText(salesId));
    if Truthy(entryLabel) {
      LabelHead(LINE + ToStr(entryLabel), OrderText(salesId));
    }
  }

  /** A label with a line part starts with it. */
  lemma LabelHead(head: string, order: Option<string>)
    ensures StartsWith(LabelFrom(Some(head), order), head)
  {
    if order.Some? {
      AppendEnds(head, " del pedido " + order.value);
      assert LabelFrom(Some(head), order) == head + (" del pedido " + order.value);
    } else {
      AppendEnds(head, "");
      assert head + "" == head;
    }
  }

  // ---------------------------------------------------------------- description

  /** The texts a description is assembled from; `None` for `kind` when
      `toLowerCase` is called on a value that is not a string. */
  datatype DescriptionParts = DescriptionParts(
    actionType: Value, kind: Option<string>, target: string, orderLabel: string,
    logRef: string, columns: Option<string>)

  /** The list of changed columns: `preview.columnas` if an array, else `columnas`. */
  function ColumnList(metadata: Value): Value {
    var previewCols := OptProp(OptProp(metadata, "preview"), "columnas");
    if previewCols.Arr? then previewCols
    else if OptProp(metadata, "columnas").Arr? then OptProp(metadata, "columnas")
    else Null
  }

  /** `(log.kind || metadata.kind || '').toLowerCase()` */
  function KindOf(log: Value, metadata: Value): Option<string> {
    var kindValue := Or(Or(OptProp(log, "kind"), OptProp(metadata, "kind")), Str(""));
    if kindValue.Str? then Some(ToLower(kindValue.s)) else None
  }

  /** The kind is matched after lower-casing, so an `INSERT` log reads as an insert. */
  lemma UpperCaseInsertIsInsert(log: Value, metadata: Value)
    requires OptProp(log, "kind") == Str("INSERT")
    ensures KindOf(log, metadata) == Some("insert")
  {
    LowerInsert();
  }

  lemma LowerInsert()
    ensures ToLower("INSERT") == "insert"
  {
    LowerUpperCons('T', "", "");
    LowerUpperCons('R', "T", "t");
    LowerUpperCons('E', "RT", "rt");
    LowerUpperCons('S', "ERT", "ert");
    LowerUpperCons('N', "SERT", "sert");
    LowerUpperCons('I', "NSERT", "nsert");
  }

  lemma LowerUpperCons(c: char, s: string, lower: string)
    requires 'A' <= c <= 'Z' && ToLower(s) == lower
    ensures ToLower([c] + s) == [(c as int + 32) as char] + lower
  {
    ToLowerCons(c, s);
  }

  /** `toNumeric(log.lineNumber) ?? toNumeric(metadata.lineNumber)` */
  function LineNumberOf(log: Value, metadata: Value): Option<real> {
    match ToNumeric(OptProp(log, "lineNumber"))
    case Some(n) => Some(n)
    case None => ToNumeric(OptProp(metadata, "lineNumber"))
  }

  /** Lines 89-97 of `buildLogDescription`: each field from the log, then the metadata. */
  function PartsOf(log: Value, metadata: Value): DescriptionParts {
    var salesId := Or(Or(Or(OptProp(log, "salesId"), OptProp(metadata, "salesId")), OptProp(metadata, "SalesId")), Null);
    var entryLabel := Or(Or(Or(Or(OptProp(OptProp(metadata, "preview"), "salesLinePk"), OptProp(metadata, "entryId")),
                               OptProp(log, "entryId")), OptProp(metadata, "entryID")), Null);
    var target := FormatTargetLabel(entryLabel, LineNumberOf(log, metadata), salesId);
    DescriptionParts(
      Or(Or(OptProp(log, "actionType"), OptProp(metadata, "actionType")), Str("sql")),
      KindOf(log, metadata),
      target,
      if Truthy(salesId) then ORDER + ToStr(salesId) else target,
      ToStr(Or(OptProp(metadata, "sourceLogId"), OptProp(log, "logId"))),
      DescribeColumns(ColumnList(metadata)))
  }

  const FROM_LOG_TEXT := "Se revirti\U{00F3} el log #"
  const ROLLBACK_TEXT := "Se ejecut\U{00F3} el rollback manual para "
  const INSERT_TEXT := "Se insert\U{00F3} un registro para "
  const UPDATE_TEXT := "Actualiz\U{00F3} "
  const MANUAL_TEXT := "Ejecut\U{00F3} SQL manual directamente sobre "

  /** The sentence for the parts, by the precedence of lines 99-105. */
  function Sentence(p: DescriptionParts): string
    requires p.kind.Some?
  {
    if p.actionType == Str("rollback-from-log") then
      FROM_LOG_TEXT + (p.logRef + " para " + p.orderLabel + " usando el rollback almacenado.")
    else if p.actionType == Str("rollback") then
      ROLLBACK_TEXT + (p.orderLabel + " y se restauraron los datos originales.")
    else if p.kind.value == "insert" then
      INSERT_TEXT + (p.orderLabel + " en Snowflake para reponer la l\U{00ED}nea faltante.")
    else if p.columns.Some? then
      UPDATE_TEXT + (p.columns.value + " de " + p.target + ".")
    else
      MANUAL_TEXT + (p.target + ".")
  }

  /** `buildLogDescription(log)`: `Ok(None)` for no log; a TypeError when the
      metadata is `null` (its `preview` is read unconditionally) or the chosen kind
      is not a string. */
  function BuildLogDescription(log: Value, parseJson: string -> Option<Value>): (r: Result<Option<string>>)
    ensures !Truthy(log) ==> r == Ok(None)
    ensures Truthy(log) && Nullish(ParseMetadata(OptProp(log, "extraMetadata"), parseJson)) ==> r.Err?
    ensures var metadata := ParseMetadata(OptProp(log, "extraMetadata"), parseJson);
            Truthy(log) && !Nullish(metadata) ==>
              && (r.Ok? <==> PartsOf(log, metadata).kind.Some?)
              && (r.Ok? ==> r.value == Some(Sentence(PartsOf(log, metadata))))
  {
    if !Truthy(log) then Ok(None)
    else
      var metadata := ParseMetadata(OptProp(log, "extraMetadata"), parseJson);
      if Nullish(metadata) then Err("TypeError: Cannot read properties of null")
      else
        var parts := PartsOf(log, metadata);
        if parts.kind.None? then Err("TypeError: toLowerCase is not a function")
        else Ok(Some(Sentence(parts)))
  }

  /** Branch precedence: a rollback from the log wins over a manual rollback, which
      wins over an insert, which wins over the column or manual-SQL text. */
  lemma DescriptionPrecedence(p: DescriptionParts)
    requires p.kind.Some?
    ensures p.actionType == Str("rollback-from-log") ==> StartsWith(Sentence(p), FROM_LOG_TEXT)
    ensures p.actionType == Str("rollback") ==> StartsWith(Sentence(p), ROLLBACK_TEXT)
    ensures p.actionType != Str("rollback-from-log") && p.actionType != Str("rollback") && p.kind.value == "insert"
            ==> StartsWith(Sentence(p), INSERT_TEXT)
    ensures p.actionType != Str("rollback-from-log") && p.actionType != Str("rollback") && p.kind.value != "insert"
            ==> StartsWith(Sentence(p), if p.columns.Some? then UPDATE_TEXT else MANUAL_TEXT)
  {
    if p.actionType == Str("rollback-from-log") {
      AppendEnds(FROM_LOG_TEXT, p.logRef + " para " + p.orderLabel + " usando el rollback almacenado.");
    } else if p.actionType == Str("rollback") {
      AppendEnds(ROLLBACK_TEXT, p.orderLabel + " y se restauraron los datos originales.");
    } else if p.kind.value == "insert" {
      AppendEnds(INSERT_TEXT, p.orderLabel + " en Snowflake para reponer la l\U{00ED}nea faltante.");
    } else if p.columns.Some? {
      AppendEnds(UPDATE_TEXT, p.columns.value + " de " + p.target + ".");
    } else {
      AppendEnds(MANUAL_TEXT, p.target + ".");
    }
  }

  /** The precedence, stated of the description a log card shows: a rollback from
      the log, then a manual rollback, then an insert, then the column or manual text. */
  lemma LogDescriptionPrecedence(log: Value, parseJson: string -> Option<Value>)
    requires Truthy(log) && !Nullish(ParseMetadata(OptProp(log, "extraMetadata"), parseJson))
    requires BuildLogDescription(log, parseJson).Ok?
    ensures var p := PartsOf(log, ParseMetadata(OptProp(log, "extraMetadata"), parseJson));
            var d := BuildLogDescription(log, parseJson).value;
            && p.kind.Some? && d.Some?
            && (p.actionType == Str("rollback-from-log") ==> StartsWith(d.value, FROM_LOG_TEXT))
            && (p.actionType == Str("rollback") ==> StartsWith(d.value, ROLLBACK_TEXT))
            && (p.actionType != Str("rollback-from-log") && p.actionType != Str("rollback") && p.kind.value == "insert"
                ==> StartsWith(d.value, INSERT_TEXT))
            && (p.actionType != Str("rollback-from-log") && p.actionType != Str("rollback") && p.kind.value != "insert"
                ==> StartsWith(d.value, if p.columns.Some? then UPDATE_TEXT else MANUAL_TEXT))
  {
    DescriptionPrecedence(PartsOf(log, ParseMetadata(OptProp(log, "extraMetadata"), parseJson)));
  }

  // ---------------------------------------------------------------- rollback offer

  const NOT_APPLICABLE := "-- N/A"

  /** `hasRollback` of a log card: the trimmed rollback text is neither empty nor `-- N/A`. */
  predicate LogHasRollback(rollbackSql: Option<string>) {
    rollbackSql.Some? && Trim(rollbackSql.value) != "" && Trim(rollbackSql.value) != NOT_APPLICABLE
  }

  /** A rollback without surrounding blanks that the correction panel offers (it does
      not open with `-- N/A`) is offered again from its log; the converse fails, as
      `-- N/A;` shows. */
  lemma LogOffersPanelRollback(s: string)
    requires s != "" && !IsSpace(s[0]) && !IsSpace(s[|s| - 1])
    ensures !StartsWith(s, NOT_APPLICABLE) ==> LogHasRollback(Some(s))
    ensures LogHasRollback(Some(NOT_APPLICABLE + ";")) && StartsWith(NOT_APPLICABLE + ";", NOT_APPLICABLE)
  {
    NoSpaceTrim(s);
    var t := NOT_APPLICABLE + ";";
    NoSpaceTrim(t);
    assert t[..|NOT_APPLICABLE|] == NOT_APPLICABLE;
    assert |t| != |NOT_APPLICABLE|;
  }

  // ---------------------------------------------------------------- paging

  const PAGE_SIZE := 25

  datatype Window = Window(startRow: nat, endRow: nat, hasNext: bool)

  /** `startRow`, `endRow` and `hasNext` for a page the server returned. */
  function WindowOf(total: nat, offset: nat, limit: nat): (w: Window)
    ensures w.startRow == 0 <==> total == 0
    ensures total > 0 ==> w.startRow == offset + 1
    ensures w.endRow <= total && w.endRow <= offset + limit
    ensures w.endRow == total || w.endRow == offset + limit
    ensures w.hasNext <==> offset + limit < total
    ensures w.hasNext ==> w.endRow == offset + limit
  {
    Window(if total == 0 then 0 else offset + 1, if offset + limit < total then offset + limit else total, offset + limit < total)
  }

  /** Stepping through pages of 25 shows every row once: row `k` (counted from 1)
      is in the window of page `(k - 1) / 25`, and every earlier page has a next one. */
  lemma PagingCoversRows(total: nat, k: nat)
    requires 1 <= k <= total
    ensures var page := (k - 1) / PAGE_SIZE;
            var w := WindowOf(total, page * PAGE_SIZE, PAGE_SIZE);
            && w.startRow <= k <= w.endRow
            && w.endRow - w.startRow + 1 == (if total - page * PAGE_SIZE < PAGE_SIZE then total - page * PAGE_SIZE else PAGE_SIZE)
            && forall q :: 0 <= q < page ==> WindowOf(total, q * PAGE_SIZE, PAGE_SIZE).hasNext
  {
    var page := (k - 1) / PAGE_SIZE;
    assert page * PAGE_SIZE <= k - 1 < page * PAGE_SIZE + PAGE_SIZE;
    forall q | 0 <= q < page ensures WindowOf(total, q * PAGE_SIZE, PAGE_SIZE).hasNext {
      assert q * PAGE_SIZE + PAGE_SIZE <= page * PAGE_SIZE;
    }
  }

  datatype Filters = Filters(salesId: string, actionType: string)

  const NO_FILTERS := Filters("", "")

  /** What the list request sends. */
  datatype Params = Params(limit: nat, offset: nat, salesId: Option<string>, actionType: Option<string>)

  /** `queryParams`: a trimmed, non-blank order id and a non-empty action type. */
  function QueryParams(applied: Filters, page: nat): (p: Params)
    ensures p.limit == PAGE_SIZE && p.offset == page * PAGE_SIZE
    ensures p.salesId.Some? <==> !AllSpace(applied.salesId)
    ensures p.salesId.Some? ==> p.salesId.value == Trim(applied.salesId)
    ensures p.actionType.Some? <==> applied.actionType != ""
  {
    TrimEmptyIffAllSpace(applied.salesId);
    Params(PAGE_SIZE, page * PAGE_SIZE,
           if Trim(applied.salesId) != "" then Some(Trim(applied.salesId)) else None,
           if applied.actionType != "" then Some(applied.actionType) else None)
  }

  /** The list view's state: the filter form, the applied filters, the page and the
      rollback confirmation. */
  class LogList {
    var formFilters: Filters
    var appliedFilters: Filters
    var page: nat
    var pendingRollback: Option<nat>
    /** `confirmGuardRef.current` */
    var confirmGuard: bool
    var dialogSubmitting: bool

    constructor()
      ensures formFilters == NO_FILTERS && appliedFilters == NO_FILTERS && page == 0
      ensures pendingRollback.None? && !confirmGuard && !dialogSubmitting
    {
      formFilters := NO_FILTERS;
      appliedFilters := NO_FILTERS;
      page := 0;
      pendingRollback := None;
      confirmGuard := false;
      dialogSubmitting := false;
    }

    /** `handleApplyFilters` */
    method ApplyFilters()
      modifies this
      ensures appliedFilters == formFilters == old(formFilters) && page == 0
      ensures pendingRollback == old(pendingRollback) && confirmGuard == old(confirmGuard)
      ensures dialogSubmitting == old(dialogSubmitting)
    {
      appliedFilters := formFilters;
      page := 0;
    }

    /** `handleClearFilters` */
    method ClearFilters()
      modifies this
      ensures formFilters == NO_FILTERS && appliedFilters == NO_FILTERS && page == 0
      ensures pendingRollback == old(pendingRollback) && confirmGuard == old(confirmGuard)
      ensures dialogSubmitting == old(dialogSubmitting)
    {
      formFilters := NO_FILTERS;
      appliedFilters := NO_FILTERS;
      page := 0;
    }

    /** `handlePrevPage`: one page back, never below the first. */
    method PrevPage()
      modifies this
      ensures page == if old(page) == 0 then 0 else old(page) - 1
      ensures formFilters == old(formFilters) && appliedFilters == old(appliedFilters)
      ensures pendingRollback == old(pendingRollback) && confirmGuard == old(confirmGuard)
      ensures dialogSubmitting == old(dialogSubmitting)
    {
      page := if page == 0 then 0 else page - 1;
    }

    /** `handleNextPage`: one page on, only when the window has a next page. */
    method NextPage(w: Window)
      modifies this
      ensures page == if w.hasNext then old(page) + 1 else old(page)
      ensures formFilters == old(formFilters) && appliedFilters == old(appliedFilters)
      ensures pendingRollback == old(pendingRollback) && confirmGuard == old(confirmGuard)
      ensures dialogSubmitting == old(dialogSubmitting)
    {
      if w.hasNext {
        page := page + 1;
      }
    }

    /** `handleConfirmRollback`: returns the log to roll back, or nothing when no
        rollback is pending, the mutation is running or the guard is raised. */
    method ConfirmRollback(mutationLoading: bool) returns (logId: Option<nat>)
      modifies this
      ensures old(pendingRollback).None? || mutationLoading || old(confirmGuard) ==>
                logId.None? && confirmGuard == old(confirmGuard) && dialogSubmitting == old(dialogSubmitting)
      ensures old(pendingRollback).Some? && !mutationLoading && !old(confirmGuard) ==>
                logId == old(pendingRollback) && confirmGuard && dialogSubmitting
      ensures pendingRollback == old(pendingRollback) && page == old(page)
      ensures formFilters == old(formFilters) && appliedFilters == old(appliedFilters)
    {
      if pendingRollback.None? || mutationLoading || confirmGuard {
        return None;
      }
      confirmGuard := true;
      dialogSubmitting := true;
      logId := pendingRollback;
    }

    /** The mutation's settlement: a success closes the dialog; either way the guard
        and the submitting flag drop. */
    method SettleRollback(succeeded: bool)
      modifies this
      ensures !confirmGuard && !dialogSubmitting
      ensures pendingRollback == if succeeded then None else old(pendingRollback)
      ensures page == old(page) && formFilters == old(formFilters) && appliedFilters == old(appliedFilters)
    {
      if succeeded {
        pendingRollback := None;
      }
      confirmGuard := false;
      dialogSubmitting := false;
    }
  }
}
