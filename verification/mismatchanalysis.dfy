/**
 * The line reconciler of `analyzeSalesIdMismatch`: once the OData lines and the
 * Snowflake rows of one sales order are fetched, both are indexed by line
 * creation sequence number, every line number is classified, and the summary
 * buckets are filled.
 *
 * The two fetches are inputs here; the report's `generatedAt` clock reading is
 * not modelled.
 */
module MismatchAnalysis {
  import opened Wrappers
  import opened JsString
  import opened JsValue
  import opened Seqs

  /** Amounts closer than this are equal. */
  const NUMBER_TOLERANCE: real := 0.005

  // ---------------------------------------------------------------- normalisers

  /** The position of the first element that `keep` accepts, if any. */
  function FirstWhere<T>(xs: seq<T>, keep: T -> bool): (r: Option<nat>)
    ensures r.Some? ==> r.value < |xs| && keep(xs[r.value]) && forall j :: 0 <= j < r.value ==> !keep(xs[j])
    ensures r.None? <==> forall i :: 0 <= i < |xs| ==> !keep(xs[i])
  {
    if xs == [] then None
    else if keep(xs[0]) then Some(0)
    else
      var r := FirstWhere(xs[1..], keep);
      assert forall i :: 1 <= i < |xs| ==> xs[i] == xs[1..][i - 1];
      if r.None? then None else Some(r.value + 1)
  }

  /** The candidates `normalizeAmount` and `normalizeLineNumber` pass over: null,
      undefined and the empty string. */
  predicate SkippedNumber(v: Value) {
    Nullish(v) || v == Str("")
  }

  /** A candidate `normalizeAmount` accepts: not skipped, and a finite number. */
  predicate AmountPicked(v: Value) {
    !SkippedNumber(v) && ToNumber(v).Some?
  }

  /** `normalizeAmount(...candidates)` */
  function NormalizeAmount(candidates: seq<Value>): Option<real> {
    var i := FirstWhere(candidates, AmountPicked);
    if i.None? then None else ToNumber(candidates[i.value])
  }

  /** `normalizeAmount` returns the first candidate that is not skipped and converts
      to a finite number, and null iff there is none. */
  lemma NormalizeAmountFirst(candidates: seq<Value>)
    ensures var r := NormalizeAmount(candidates);
            r.Some? ==> exists i :: 0 <= i < |candidates| && !SkippedNumber(candidates[i]) && ToNumber(candidates[i]) == r &&
                          forall j :: 0 <= j < i ==> SkippedNumber(candidates[j]) || ToNumber(candidates[j]).None?
    ensures NormalizeAmount(candidates).None? <==>
            forall i :: 0 <= i < |candidates| ==> SkippedNumber(candidates[i]) || ToNumber(candidates[i]).None?
  {
    var i := FirstWhere(candidates, AmountPicked);
    if i.Some? {
      assert AmountPicked(candidates[i.value]);
    }
    assert forall j :: 0 <= j < |candidates| ==> (AmountPicked(candidates[j]) <==> !(SkippedNumber(candidates[j]) || ToNumber(candidates[j]).None?));
  }

  /** `normalizeLineNumber(value)` */
  function NormalizeLineNumber(value: Value): (r: Option<real>)
    ensures SkippedNumber(value) ==> r.None?
    ensures !SkippedNumber(value) ==> r == ToNumber(value)
  {
    if SkippedNumber(value) then None else ToNumber(value)
  }

  /** The one-candidate `normalizeAmount` is `normalizeLineNumber`. */
  lemma LineNumberIsSingleAmount(value: Value)
    ensures NormalizeLineNumber(value) == NormalizeAmount([value])
  {
    assert [value][0] == value;
  }

  /** The candidates `normalizeString` passes over: falsy values other than 0. */
  predicate SkippedString(v: Value) {
    !Truthy(v) && !v.Num?
  }

  /** What `normalizeString` makes of a candidate it does not skip. */
  function Blank(v: Value): string {
    Trim(ToStr(v))
  }

  /** A candidate `normalizeString` accepts: not skipped, and not blank. */
  predicate StringPicked(v: Value) {
    !SkippedString(v) && Blank(v) != []
  }

  /** `normalizeString(...candidates)` */
  function NormalizeString(candidates: seq<Value>): Option<string> {
    var i := FirstWhere(candidates, StringPicked);
    if i.None? then None else Some(ToUpper(Blank(candidates[i.value])))
  }

  /** `normalizeString` returns the first candidate that is truthy or 0 and not
      blank, trimmed and upper-cased, and null iff there is none. */
  lemma NormalizeStringFirst(candidates: seq<Value>)
    ensures var r := NormalizeString(candidates);
            r.Some? ==> exists i :: 0 <= i < |candidates| && !SkippedString(candidates[i]) && Blank(candidates[i]) != [] &&
                          r.value == ToUpper(Blank(candidates[i])) &&
                          forall j :: 0 <= j < i ==> SkippedString(candidates[j]) || Blank(candidates[j]) == []
    ensures NormalizeString(candidates).None? <==>
            forall i :: 0 <= i < |candidates| ==> SkippedString(candidates[i]) || Blank(candidates[i]) == []
  {
    var i := FirstWhere(candidates, StringPicked);
    if i.Some? {
      assert StringPicked(candidates[i.value]);
    }
    assert forall j :: 0 <= j < |candidates| ==> (StringPicked(candidates[j]) <==> !(SkippedString(candidates[j]) || Blank(candidates[j]) == []));
  }

  /** Upper-casing never empties a string. */
  lemma {:induction false} ToUpperNonEmpty(s: string)
    requires s != []
    ensures ToUpper(s) != []
  {
    assert |UpperChar(s[0])| >= 1;
  }

  /** A normalised string is never empty. */
  lemma NormalizeStringNonEmpty(candidates: seq<Value>)
    ensures NormalizeString(candidates).Some? ==> NormalizeString(candidates).value != []
  {
    var i := FirstWhere(candidates, StringPicked);
    if i.Some? {
      ToUpperNonEmpty(Blank(candidates[i.value]));
    }
  }

  // ---------------------------------------------------------------- line maps

  /** A JS `Map` keyed by line number: its entries and its keys in insertion order. */
  datatype LineMap<V> = LineMap(entries: map<real, V>, order: seq<real>) {
    ghost predicate Valid() {
      (forall i, j :: 0 <= i < j < |order| ==> order[i] != order[j]) &&
      (forall k :: k in entries <==> k in order)
    }
  }

  /** `map.set(k, v)`: a new key goes last, an existing one keeps its place. */
  function Put<V>(m: LineMap<V>, k: real, v: V): (r: LineMap<V>)
    ensures r.entries == m.entries[k := v]
    ensures m.Valid() ==> r.Valid()
  {
    LineMap(m.entries[k := v], if k in m.entries then m.order else m.order + [k])
  }

  /** `map.get(k) || null` */
  function Find<V>(m: LineMap<V>, k: real): Option<V> {
    if k in m.entries then Some(m.entries[k]) else None
  }

  /** The map after `forEach` visits the given keyed rows in order; a row without
      a key is skipped. */
  function Index<V>(m: LineMap<V>, rows: seq<Option<(real, V)>>): (r: LineMap<V>)
    ensures m.Valid() ==> r.Valid()
    decreases |rows|
  {
    if rows == [] then m
    else Index(if rows[0].Some? then Put(m, rows[0].value.0, rows[0].value.1) else m, rows[1..])
  }

  /** A line number is in the map iff it was there before or some row carries it. */
  lemma {:induction false} IndexDomain<V>(m: LineMap<V>, rows: seq<Option<(real, V)>>, k: real)
    ensures k in Index(m, rows).entries <==> k in m.entries || exists i :: 0 <= i < |rows| && rows[i].Some? && rows[i].value.0 == k
    decreases |rows|
  {
    if rows != [] {
      var m' := if rows[0].Some? then Put(m, rows[0].value.0, rows[0].value.1) else m;
      IndexDomain(m', rows[1..], k);
      assert forall i :: 1 <= i < |rows| ==> rows[i] == rows[1..][i - 1];
      if exists i :: 0 <= i < |rows| && rows[i].Some? && rows[i].value.0 == k {
        var i :| 0 <= i < |rows| && rows[i].Some? && rows[i].value.0 == k;
        if i > 0 {
          assert rows[1..][i - 1] == rows[i];
        }
      }
    }
  }

  /** A later row with the same line number overwrites an earlier one: the map
      holds the value of the last row carrying each line number. */
  lemma {:induction false} IndexLastWins<V>(m: LineMap<V>, rows: seq<Option<(real, V)>>, i: nat)
    requires i < |rows| && rows[i].Some?
    requires forall j :: i < j < |rows| && rows[j].Some? ==> rows[j].value.0 != rows[i].value.0
    ensures rows[i].value.0 in Index(m, rows).entries
    ensures Index(m, rows).entries[rows[i].value.0] == rows[i].value.1
    decreases |rows|
  {
    var m' := if rows[0].Some? then Put(m, rows[0].value.0, rows[0].value.1) else m;
    if i == 0 {
      IndexUntouched(m', rows[1..], rows[0].value.0);
    } else {
      assert forall j :: i - 1 < j < |rows[1..]| ==> rows[1..][j] == rows[j + 1];
      IndexLastWins(m', rows[1..], i - 1);
    }
  }

  /** Rows that never carry `k` leave its entry alone. */
  lemma {:induction false} IndexUntouched<V>(m: LineMap<V>, rows: seq<Option<(real, V)>>, k: real)
    requires k in m.entries
    requires forall j :: 0 <= j < |rows| && rows[j].Some? ==> rows[j].value.0 != k
    ensures k in Index(m, rows).entries && Index(m, rows).entries[k] == m.entries[k]
    decreases |rows|
  {
    if rows != [] {
      var m' := if rows[0].Some? then Put(m, rows[0].value.0, rows[0].value.1) else m;
      assert forall j :: 0 <= j < |rows[1..]| ==> rows[1..][j] == rows[j + 1];
      IndexUntouched(m', rows[1..], k);
    }
  }

  // ---------------------------------------------------------------- normalised lines

  /** The normalised OData line kept in `odataMap`. */
  datatype OdataLine = OdataLine(amount: Option<real>, itemId: Option<string>, invoiceId: Option<string>,
                                 canal: Option<string>, raw: Value)

  /** The normalised Snowflake row kept in `snowflakeMap`. */
  datatype SnowLine = SnowLine(amount: Option<real>, invoiceId: Option<string>, canal: Option<string>,
                               linePk: Value, raw: Record)

  /** The line number and normalised line of an OData line that is not null or
      undefined; `None` when it has no line number. */
  function OdataEntry(line: Value): Option<(real, OdataLine)> {
    var p := (k: string) => OptProp(line, k);
    var lineNo := NormalizeLineNumber(Coalesce(Coalesce(p("LineCreationSequenceNumber"), p("LINECREATIONSEQUENCENUMBER")), p("LineNumber")));
    if lineNo.None? then None
    else
      Some((lineNo.value, OdataLine(
        NormalizeAmount([p("AccountingCurrencyAmount"), p("ACCOUNTINGCURRENCYAMOUNT"), p("LineAmount"), p("LINEAMOUNT")]),
        NormalizeString([p("ItemNumber"), p("ITEMNUMBER"), p("ITEMID"), p("ItemId")]),
        NormalizeString([p("InvoiceId"), p("INVOICEID")]),
        NormalizeString([p("GAPCanalDimension"), p("GAPCANALDIMENSION")]),
        line)))
  }

  /** The line number and normalised row of a Snowflake row; `None` when it has no
      line number. */
  function SnowEntry(row: Record): Option<(real, SnowLine)> {
    var lineNo := NormalizeLineNumber(Coalesce(Coalesce(Get(row, "LINECREATIONSEQUENCENUMBER"), Get(row, "LINE_NO")), Get(row, "LINENUM")));
    if lineNo.None? then None
    else
      Some((lineNo.value, SnowLine(
        NormalizeAmount([Get(row, "LINEAMOUNT"), Get(row, "LINEAMOUNTMST")]),
        NormalizeString([Get(row, "INVOICEID")]),
        NormalizeString([Get(row, "CANAL")]),
        Get(row, "SALESLINEPK"),
        row)))
  }

  function OdataEntries(lines: seq<Value>): (es: seq<Option<(real, OdataLine)>>)
    ensures |es| == |lines| && forall i :: 0 <= i < |lines| ==> es[i] == OdataEntry(lines[i])
  {
    seq(|lines|, i requires 0 <= i < |lines| => OdataEntry(lines[i]))
  }

  function SnowEntries(rows: seq<Record>): (es: seq<Option<(real, SnowLine)>>)
    ensures |es| == |rows| && forall i :: 0 <= i < |rows| ==> es[i] == SnowEntry(rows[i])
  {
    seq(|rows|, i requires 0 <= i < |rows| => SnowEntry(rows[i]))
  }

  /** The OData `forEach`: reading a property of a null or undefined line throws. */
  function OdataFold(m: LineMap<OdataLine>, lines: seq<Value>): Result<LineMap<OdataLine>>
    decreases |lines|
  {
    if lines == [] then Ok(m)
    else if Nullish(lines[0]) then Err(Prop(lines[0], "LineCreationSequenceNumber").error)
    else OdataFold(if OdataEntry(lines[0]).Some? then Put(m, OdataEntry(lines[0]).value.0, OdataEntry(lines[0]).value.1) else m, lines[1..])
  }

  /** One step of the OData fold over a line that is not null or undefined. */
  lemma OdataFoldCons(m: LineMap<OdataLine>, lines: seq<Value>)
    requires lines != [] && !Nullish(lines[0])
    ensures var e := OdataEntry(lines[0]);
            OdataFold(m, lines) == OdataFold(if e.Some? then Put(m, e.value.0, e.value.1) else m, lines[1..])
  {
  }

  /** The entries of the lines after the first. */
  lemma OdataEntriesCons(lines: seq<Value>)
    requires lines != []
    ensures OdataEntries(lines) == [OdataEntry(lines[0])] + OdataEntries(lines[1..])
  {
    PointwiseCons(lines, OdataEntries(lines), OdataEntries(lines[1..]), OdataEntry);
  }

  /** One step of indexing. */
  lemma IndexCons<V>(m: LineMap<V>, e: Option<(real, V)>, rows: seq<Option<(real, V)>>)
    ensures Index(m, [e] + rows) == Index(if e.Some? then Put(m, e.value.0, e.value.1) else m, rows)
  {
    assert ([e] + rows)[1..] == rows;
  }

  /** The OData fold fails iff some line is null or undefined. */
  lemma {:induction false} OdataFoldFails(m: LineMap<OdataLine>, lines: seq<Value>)
    ensures OdataFold(m, lines).Ok? <==> forall i :: 0 <= i < |lines| ==> !Nullish(lines[i])
    decreases |lines|
  {
    if lines != [] && !Nullish(lines[0]) {
      var e := OdataEntry(lines[0]);
      OdataFoldCons(m, lines);
      OdataFoldFails(if e.Some? then Put(m, e.value.0, e.value.1) else m, lines[1..]);
      assert forall i :: 1 <= i < |lines| ==> lines[i] == lines[1..][i - 1];
    }
  }

  /** The OData fold fails iff some line is null or undefined, and otherwise indexes
      every line. */
  lemma {:induction false} OdataFoldIndexes(m: LineMap<OdataLine>, lines: seq<Value>)
    ensures OdataFold(m, lines).Ok? <==> forall i :: 0 <= i < |lines| ==> !Nullish(lines[i])
    ensures OdataFold(m, lines).Ok? ==> OdataFold(m, lines).value == Index(m, OdataEntries(lines))
    decreases |lines|
  {
    OdataFoldFails(m, lines);
    if lines == [] {
      assert OdataEntries(lines) == [];
    } else if !Nullish(lines[0]) {
      var e := OdataEntry(lines[0]);
      var m' := if e.Some? then Put(m, e.value.0, e.value.1) else m;
      OdataFoldCons(m, lines);
      OdataEntriesCons(lines);
      OdataFoldIndexes(m', lines[1..]);
      IndexCons(m, e, OdataEntries(lines[1..]));
    }
  }

  /** The `odataMap` loop. */
  method BuildOdataMap(lines: seq<Value>) returns (r: Result<LineMap<OdataLine>>)
    ensures r == OdataFold(LineMap(map[], []), lines)
  {
    var m: LineMap<OdataLine> := LineMap(map[], []);
    var i := 0;
    while i < |lines|
      invariant 0 <= i <= |lines|
      invariant OdataFold(m, lines[i..]) == OdataFold(LineMap(map[], []), lines)
    {
      assert lines[i..][1..] == lines[i + 1..];
      if Nullish(lines[i]) {
        return Err(Prop(lines[i], "LineCreationSequenceNumber").error);
      }
      var entry := OdataEntry(lines[i]);
      if entry.Some? {
        m := Put(m, entry.value.0, entry.value.1);
      }
      i := i + 1;
    }
    return Ok(m);
  }

  /** The `snowflakeMap` loop. */
  method BuildSnowMap(rows: seq<Record>) returns (m: LineMap<SnowLine>)
    ensures m == Index(LineMap(map[], []), SnowEntries(rows))
  {
    m := LineMap(map[], []);
    var es := SnowEntries(rows);
    var i := 0;
    while i < |rows|
      invariant 0 <= i <= |rows|
      invariant Index(m, es[i..]) == Index(LineMap(map[], []), es)
    {
      assert es[i..][1..] == es[i + 1..];
      var entry := SnowEntry(rows[i]);
      if entry.Some? {
        m := Put(m, entry.value.0, entry.value.1);
      }
      i := i + 1;
    }
  }

  // ---------------------------------------------------------------- line numbers

  predicate StrictlyIncreasing(xs: seq<real>) {
    forall i, j :: 0 <= i < j < |xs| ==> xs[i] < xs[j]
  }

  /** `x` put into its place in a strictly increasing list, unless already there. */
  function InsertSorted(xs: seq<real>, x: real): (r: seq<real>)
    requires StrictlyIncreasing(xs)
    ensures StrictlyIncreasing(r)
    ensures forall y :: y in r <==> y in xs || y == x
  {
    if xs == [] then [x]
    else if x < xs[0] then [x] + xs
    else if x == xs[0] then xs
    else
      var rest := InsertSorted(xs[1..], x);
      assert forall y :: y in xs <==> y == xs[0] || y in xs[1..];
      assert forall y :: y in rest ==> xs[0] < y by {
        forall y | y in xs[1..] ensures xs[0] < y {
          var k :| 0 <= k < |xs[1..]| && xs[1..][k] == y;
          assert xs[k + 1] == y;
        }
      }
      assert forall i :: 0 <= i < |rest| ==> rest[i] in rest;
      [xs[0]] + rest
  }

  /** `Array.from(new Set(xs))` sorted with `(a, b) => a - b`: every line number
      once, in ascending order. */
  function SortUnique(xs: seq<real>): (r: seq<real>)
    ensures StrictlyIncreasing(r)
    ensures forall y :: y in r <==> y in xs
  {
    if xs == [] then []
    else
      var prefix := xs[..|xs| - 1];
      assert forall y :: y in xs <==> y in prefix || y == xs[|xs| - 1];
      InsertSorted(SortUnique(prefix), xs[|xs| - 1])
  }

  // ---------------------------------------------------------------- classification

  datatype Status = Match | MissingInOData | MissingInSnowflake | AmountMismatch | InvoiceMismatch | CanalMismatch

  /** The status string the report carries. */
  function StatusName(s: Status): string {
    match s
    case Match => "MATCH"
    case MissingInOData => "MISSING_IN_ODATA"
    case MissingInSnowflake => "MISSING_IN_SNOWFLAKE"
    case AmountMismatch => "AMOUNT_MISMATCH"
    case InvoiceMismatch => "INVOICE_MISMATCH"
    case CanalMismatch => "CANAL_MISMATCH"
  }

  /** One entry of a line's `issues`, with the flag pushed beside it. */
  datatype Issue = AbsentInOData | AbsentInSnowflake | AmountDiffers(diff: real) | InvoiceDiffers | CanalDiffers {
    function Flag(): Status {
      match this
      case AbsentInOData => MissingInOData
      case AbsentInSnowflake => MissingInSnowflake
      case AmountDiffers(_) => AmountMismatch
      case InvoiceDiffers => InvoiceMismatch
      case CanalDiffers => CanalMismatch
    }

    /** The issue text; `fixed2` renders a number as `toFixed(2)` does. */
    function Text(fixed2: real -> string): string {
      match this
      case AbsentInOData => "Línea ausente en OData"
      case AbsentInSnowflake => "Línea ausente en Snowflake"
      case AmountDiffers(d) => "Monto difiere por " + fixed2(d)
      case InvoiceDiffers => "InvoiceId distinto"
      case CanalDiffers => "Canal distinto"
    }
  }

  /** One element of `report.lines`. */
  datatype LineReport = LineReport(lineNumber: real, status: Status, issues: seq<Issue>,
                                   odataAmount: Option<real>, snowflakeAmount: Option<real>, diffAmount: real,
                                   odata: Option<OdataLine>, snowflake: Option<SnowLine>)

  function Abs(x: real): real { if x < 0.0 then -x else x }

  /** The canal the comparison reads from the raw OData line. */
  function OdataCanal(o: OdataLine): Option<string> {
    NormalizeString([OptProp(o.raw, "Canal"), OptProp(o.raw, "GAPCanalDimension")])
  }

  predicate AmountsDiffer(o: OdataLine, s: SnowLine) {
    o.amount.Some? && s.amount.Some? && Abs(s.amount.value - o.amount.value) > NUMBER_TOLERANCE
  }

  predicate InvoicesDiffer(o: OdataLine, s: SnowLine) {
    o.invoiceId.Some? && s.invoiceId.Some? && o.invoiceId != s.invoiceId
  }

  predicate CanalsDiffer(o: OdataLine, s: SnowLine) {
    OdataCanal(o).Some? && s.canal.Some? && OdataCanal(o) != s.canal
  }

  /** The outcome of the three comparisons of a line present on both sides: the
      amount difference when it exceeds the tolerance, and whether the invoice ids
      and the canals differ. */
  datatype Comparison = Comparison(amountDiff: Option<real>, invoice: bool, canal: bool)

  function Compare(o: OdataLine, s: SnowLine): Comparison {
    Comparison(if AmountsDiffer(o, s) then Some(s.amount.value - o.amount.value) else None,
               InvoicesDiffer(o, s), CanalsDiffer(o, s))
  }

  /** The issues the three comparisons push, in the order they run. */
  function MismatchIssues(c: Comparison): seq<Issue> {
    (if c.amountDiff.Some? then [AmountDiffers(c.amountDiff.value)] else []) +
    (if c.invoice then [InvoiceDiffers] else []) +
    (if c.canal then [CanalDiffers] else [])
  }

  /** The issues of a line number. */
  function Issues(o: Option<OdataLine>, s: Option<SnowLine>): seq<Issue> {
    if o.None? then [AbsentInOData]
    else if s.None? then [AbsentInSnowflake]
    else MismatchIssues(Compare(o.value, s.value))
  }

  /** A flag raised for a line. */
  predicate Raised(issues: seq<Issue>, flag: Status) {
    exists i :: 0 <= i < |issues| && issues[i].Flag() == flag
  }

  /** The first issue the comparisons push names the first comparison that fails. */
  lemma FirstFlag(c: Comparison)
    ensures var issues := MismatchIssues(c);
            (if issues == [] then Match else issues[0].Flag()) ==
            if c.amountDiff.Some? then AmountMismatch
            else if c.invoice then InvoiceMismatch
            else if c.canal then CanalMismatch
            else Match
  {
  }

  /** The report of one line number. */
  function ClassifyLine(lineNo: real, o: Option<OdataLine>, s: Option<SnowLine>): (r: LineReport)
    ensures r.lineNumber == lineNo && r.odata == o && r.snowflake == s
    ensures r.odataAmount == (if o.Some? then o.value.amount else None)
    ensures r.snowflakeAmount == (if s.Some? then s.value.amount else None)
    ensures r.diffAmount == r.snowflakeAmount.GetOr(0.0) - r.odataAmount.GetOr(0.0)
    ensures o.None? ==> r.status == MissingInOData
    ensures o.Some? && s.None? ==> r.status == MissingInSnowflake
    ensures o.Some? && s.Some? ==>
              r.status == if AmountsDiffer(o.value, s.value) then AmountMismatch
                          else if InvoicesDiffer(o.value, s.value) then InvoiceMismatch
                          else if CanalsDiffer(o.value, s.value) then CanalMismatch
                          else Match
  {
    var issues := Issues(o, s);
    assert o.Some? && s.Some? ==>
      ((if issues == [] then Match else issues[0].Flag()) ==
       if AmountsDiffer(o.value, s.value) then AmountMismatch
       else if InvoicesDiffer(o.value, s.value) then InvoiceMismatch
       else if CanalsDiffer(o.value, s.value) then CanalMismatch
       else Match) by {
      if o.Some? && s.Some? {
        FirstFlag(Compare(o.value, s.value));
      }
    }
    var odataAmount := if o.Some? then o.value.amount else None;
    var snowAmount := if s.Some? then s.value.amount else None;
    LineReport(lineNo, if issues == [] then Match else issues[0].Flag(), issues,
               odataAmount, snowAmount, snowAmount.GetOr(0.0) - odataAmount.GetOr(0.0), o, s)
  }

  /** A flag is raised by a concatenation of issue lists iff by one of them. */
  lemma RaisedAppend(a: seq<Issue>, b: seq<Issue>, flag: Status)
    ensures Raised(a + b, flag) <==> Raised(a, flag) || Raised(b, flag)
  {
    if Raised(a + b, flag) {
      var i :| 0 <= i < |a + b| && (a + b)[i].Flag() == flag;
      if i >= |a| { assert b[i - |a|] == (a + b)[i]; }
    }
    if Raised(b, flag) {
      var i :| 0 <= i < |b| && b[i].Flag() == flag;
      assert (a + b)[|a| + i] == b[i];
    }
    if Raised(a, flag) {
      var i :| 0 <= i < |a| && a[i].Flag() == flag;
      assert (a + b)[i] == a[i];
    }
  }

  /** Each comparison raises its flag iff it fails, and no other flag. */
  lemma MismatchFlags(c: Comparison, flag: Status)
    ensures Raised(MismatchIssues(c), flag) <==>
              (flag == AmountMismatch && c.amountDiff.Some?) ||
              (flag == InvoiceMismatch && c.invoice) ||
              (flag == CanalMismatch && c.canal)
  {
    var a := if c.amountDiff.Some? then [AmountDiffers(c.amountDiff.value)] else [];
    var b: seq<Issue> := if c.invoice then [InvoiceDiffers] else [];
    var d: seq<Issue> := if c.canal then [CanalDiffers] else [];
    RaisedAppend(a + b, d, flag);
    RaisedAppend(a, b, flag);
    assert Raised(a, flag) <==> c.amountDiff.Some? && flag == AmountMismatch by {
      if c.amountDiff.Some? { assert a[0].Flag() == AmountMismatch; }
    }
    assert Raised(b, flag) <==> c.invoice && flag == InvoiceMismatch by {
      if c.invoice { assert b[0].Flag() == InvoiceMismatch; }
    }
    assert Raised(d, flag) <==> c.canal && flag == CanalMismatch by {
      if c.canal { assert d[0].Flag() == CanalMismatch; }
    }
  }

  /** When both sides are present, each mismatch flag is raised iff its comparison
      fails; the status is the first flag raised, `MATCH` when none is. */
  lemma ClassifyFlags(lineNo: real, o: OdataLine, s: SnowLine, flag: Status)
    ensures var issues := ClassifyLine(lineNo, Some(o), Some(s)).issues;
            Raised(issues, flag) <==>
              (flag == AmountMismatch && AmountsDiffer(o, s)) ||
              (flag == InvoiceMismatch && InvoicesDiffer(o, s)) ||
              (flag == CanalMismatch && CanalsDiffer(o, s))
  {
    MismatchFlags(Compare(o, s), flag);
  }

  // ---------------------------------------------------------------- report

  datatype Summary = Summary(odataLineCount: nat, snowflakeLineCount: nat,
                             missingInOData: seq<real>, missingInSnowflake: seq<real>,
                             amountMismatches: seq<real>, itemMismatches: seq<real>,
                             invoiceMismatches: seq<real>, dateMismatches: seq<real>,
                             canalMismatches: seq<real>)

  datatype Report = Report(salesId: string, summary: Summary, lines: seq<LineReport>,
                           odataRawCount: nat, snowflakeRawCount: nat)

  /** The numbers of the lines, in order, that raised `flag`. */
  function Bucket(lines: seq<LineReport>, flag: Status): seq<real> {
    if lines == [] then []
    else
      var last := lines[|lines| - 1];
      Bucket(lines[..|lines| - 1], flag) + if Raised(last.issues, flag) then [last.lineNumber] else []
  }

  /** `odataResponse?.value` when it is an array, else no lines. */
  function OdataLinesOf(odataResponse: Value): seq<Value> {
    var v := OptProp(odataResponse, "value");
    if v.Arr? then v.items else []
  }

  /** The reports of the given line numbers. */
  function LineReports(nums: seq<real>, om: LineMap<OdataLine>, sm: LineMap<SnowLine>): (lines: seq<LineReport>)
    ensures |lines| == |nums|
    ensures forall i :: 0 <= i < |nums| ==> lines[i] == ClassifyLine(nums[i], Find(om, nums[i]), Find(sm, nums[i]))
  {
    seq(|nums|, i requires 0 <= i < |nums| => ClassifyLine(nums[i], Find(om, nums[i]), Find(sm, nums[i])))
  }

  /** The report built from the two indexed sides. */
  function ReportOf(salesId: string, odataLines: seq<Value>, rows: seq<Record>,
                    om: LineMap<OdataLine>, sm: LineMap<SnowLine>): Report {
    var lines := LineReports(SortUnique(om.order + sm.order), om, sm);
    Report(salesId,
           Summary(|om.order|, |sm.order|,
                   Bucket(lines, MissingInOData), Bucket(lines, MissingInSnowflake),
                   Bucket(lines, AmountMismatch), [], Bucket(lines, InvoiceMismatch), [],
                   Bucket(lines, CanalMismatch)),
           lines, |odataLines|, |rows|)
  }

  /** `analyzeSalesIdMismatch` after its two fetches. */
  function Analysis(salesId: string, odataResponse: Value, rows: seq<Record>): Result<Report> {
    var id := Trim(salesId);
    if id == "" then Err("salesId requerido")
    else
      var odataLines := OdataLinesOf(odataResponse);
      match OdataFold(LineMap(map[], []), odataLines)
      case Err(e) => Err(e)
      case Ok(om) => Ok(ReportOf(id, odataLines, rows, om, Index(LineMap(map[], []), SnowEntries(rows))))
  }

  /** The flags a line raises: a missing side alone, or each comparison that fails. */
  lemma ClassifyRaises(lineNo: real, o: Option<OdataLine>, s: Option<SnowLine>)
    ensures var issues := ClassifyLine(lineNo, o, s).issues;
            && (Raised(issues, MissingInOData) <==> o.None?)
            && (Raised(issues, MissingInSnowflake) <==> o.Some? && s.None?)
            && (Raised(issues, AmountMismatch) <==> o.Some? && s.Some? && AmountsDiffer(o.value, s.value))
            && (Raised(issues, InvoiceMismatch) <==> o.Some? && s.Some? && InvoicesDiffer(o.value, s.value))
            && (Raised(issues, CanalMismatch) <==> o.Some? && s.Some? && CanalsDiffer(o.value, s.value))
  {
    var issues := ClassifyLine(lineNo, o, s).issues;
    if o.None? {
      assert issues == [AbsentInOData] && issues[0].Flag() == MissingInOData;
    } else if s.None? {
      assert issues == [AbsentInSnowflake] && issues[0].Flag() == MissingInSnowflake;
    } else {
      ClassifyFlags(lineNo, o.value, s.value, MissingInOData);
      ClassifyFlags(lineNo, o.value, s.value, MissingInSnowflake);
      ClassifyFlags(lineNo, o.value, s.value, AmountMismatch);
      ClassifyFlags(lineNo, o.value, s.value, InvoiceMismatch);
      ClassifyFlags(lineNo, o.value, s.value, CanalMismatch);
    }
  }

  /** One line of the `lineNumbers.map` callback together with its summary pushes. */
  method ClassifyInto(lineNo: real, o: Option<OdataLine>, s: Option<SnowLine>, summary: Summary)
    returns (line: LineReport, summary': Summary)
    ensures line == ClassifyLine(lineNo, o, s)
    ensures summary'.missingInOData == summary.missingInOData + if Raised(line.issues, MissingInOData) then [lineNo] else []
    ensures summary'.missingInSnowflake == summary.missingInSnowflake + if Raised(line.issues, MissingInSnowflake) then [lineNo] else []
    ensures summary'.amountMismatches == summary.amountMismatches + if Raised(line.issues, AmountMismatch) then [lineNo] else []
    ensures summary'.invoiceMismatches == summary.invoiceMismatches + if Raised(line.issues, InvoiceMismatch) then [lineNo] else []
    ensures summary'.canalMismatches == summary.canalMismatches + if Raised(line.issues, CanalMismatch) then [lineNo] else []
    ensures summary'.odataLineCount == summary.odataLineCount && summary'.snowflakeLineCount == summary.snowflakeLineCount
    ensures summary'.itemMismatches == summary.itemMismatches && summary'.dateMismatches == summary.dateMismatches
  {
    line := ClassifyLine(lineNo, o, s);
    ClassifyRaises(lineNo, o, s);
    summary' := summary;
    if o.None? {
      summary' := summary'.(missingInOData := summary'.missingInOData + [lineNo]);
    } else if s.None? {
      summary' := summary'.(missingInSnowflake := summary'.missingInSnowflake + [lineNo]);
    } else {
      if AmountsDiffer(o.value, s.value) {
        summary' := summary'.(amountMismatches := summary'.amountMismatches + [lineNo]);
      }
      if InvoicesDiffer(o.value, s.value) {
        summary' := summary'.(invoiceMismatches := summary'.invoiceMismatches + [lineNo]);
      }
      if CanalsDiffer(o.value, s.value) {
        summary' := summary'.(canalMismatches := summary'.canalMismatches + [lineNo]);
      }
    }
  }

  /** `analyzeSalesIdMismatch`, given what the two fetches returned. */
  method AnalyzeSalesIdMismatch(salesId: string, odataResponse: Value, snowflakeRows: seq<Record>) returns (r: Result<Report>)
    ensures r == Analysis(salesId, odataResponse, snowflakeRows)
  {
    var trimmedId := Trim(salesId);
    if trimmedId == "" {
      return Err("salesId requerido");
    }
    var odataLines := OdataLinesOf(odataResponse);
    var built := BuildOdataMap(odataLines);
    if built.Err? {
      return Err(built.error);
    }
    var odataMap := built.value;
    var snowflakeMap := BuildSnowMap(snowflakeRows);
    var lines, summary := ReportLines(odataMap, snowflakeMap);
    return Ok(Report(trimmedId, summary, lines, |odataLines|, |snowflakeRows|));
  }

  /** The sorted line numbers, the `lineNumbers.map` over them and the summary it fills. */
  method ReportLines(odataMap: LineMap<OdataLine>, snowflakeMap: LineMap<SnowLine>) returns (lines: seq<LineReport>, summary: Summary)
    ensures lines == LineReports(SortUnique(odataMap.order + snowflakeMap.order), odataMap, snowflakeMap)
    ensures summary == Summary(|odataMap.order|, |snowflakeMap.order|,
                               Bucket(lines, MissingInOData), Bucket(lines, MissingInSnowflake),
                               Bucket(lines, AmountMismatch), [], Bucket(lines, InvoiceMismatch), [],
                               Bucket(lines, CanalMismatch))
  {
    var lineNumbers := SortUnique(odataMap.order + snowflakeMap.order);
    summary := Summary(|odataMap.order|, |snowflakeMap.order|, [], [], [], [], [], [], []);
    lines := [];
    var i := 0;
    while i < |lineNumbers|
      invariant 0 <= i <= |lineNumbers|
      invariant lines == LineReports(lineNumbers[..i], odataMap, snowflakeMap)
      invariant summary == Summary(|odataMap.order|, |snowflakeMap.order|,
                                   Bucket(lines, MissingInOData), Bucket(lines, MissingInSnowflake),
                                   Bucket(lines, AmountMismatch), [], Bucket(lines, InvoiceMismatch), [],
                                   Bucket(lines, CanalMismatch))
    {
      var line;
      line, summary := ClassifyInto(lineNumbers[i], Find(odataMap, lineNumbers[i]), Find(snowflakeMap, lineNumbers[i]), summary);
      LineReportsStep(lineNumbers, i, odataMap, snowflakeMap);
      BucketAppend(lines, line, MissingInOData);
      BucketAppend(lines, line, MissingInSnowflake);
      BucketAppend(lines, line, AmountMismatch);
      BucketAppend(lines, line, InvoiceMismatch);
      BucketAppend(lines, line, CanalMismatch);
      lines := lines + [line];
      i := i + 1;
    }
    PrefixWhole(lineNumbers);
  }

  /** Appending a line extends each bucket by its number when it raised that flag. */
  lemma BucketAppend(lines: seq<LineReport>, line: LineReport, flag: Status)
    ensures Bucket(lines + [line], flag) == Bucket(lines, flag) + if Raised(line.issues, flag) then [line.lineNumber] else []
  {
    assert (lines + [line])[..|lines|] == lines;
  }

  /** The reports of one more line number extend the reports of the prefix. */
  lemma LineReportsStep(nums: seq<real>, i: nat, om: LineMap<OdataLine>, sm: LineMap<SnowLine>)
    requires i < |nums|
    ensures LineReports(nums[..i + 1], om, sm) ==
            LineReports(nums[..i], om, sm) + [ClassifyLine(nums[i], Find(om, nums[i]), Find(sm, nums[i]))]
  {
    PrefixStep(nums, i);
  }

  // ---------------------------------------------------------------- report properties

  /** A line number is in a bucket iff some line with that number raised the flag. */
  lemma {:induction false} BucketMembers(lines: seq<LineReport>, flag: Status, n: real)
    ensures n in Bucket(lines, flag) <==> exists i :: 0 <= i < |lines| && lines[i].lineNumber == n && Raised(lines[i].issues, flag)
  {
    if lines != [] {
      var prefix := lines[..|lines| - 1];
      BucketMembers(prefix, flag, n);
      assert forall i :: 0 <= i < |prefix| ==> prefix[i] == lines[i];
    }
  }

  /** The analysis fails iff the sales id is blank or an OData line is null or
      undefined. */
  lemma AnalysisFails(salesId: string, odataResponse: Value, rows: seq<Record>)
    ensures Analysis(salesId, odataResponse, rows).Err? <==>
              Trim(salesId) == "" || exists i :: 0 <= i < |OdataLinesOf(odataResponse)| && Nullish(OdataLinesOf(odataResponse)[i])
    ensures Trim(salesId) == "" ==> Analysis(salesId, odataResponse, rows) == Err("salesId requerido")
  {
    OdataFoldIndexes(LineMap(map[], []), OdataLinesOf(odataResponse));
  }

  /** On success the analysis reports on the two maps indexed from the fetched lines. */
  lemma AnalysisOk(salesId: string, odataResponse: Value, rows: seq<Record>)
    requires Analysis(salesId, odataResponse, rows).Ok?
    ensures Analysis(salesId, odataResponse, rows) ==
            Ok(ReportOf(Trim(salesId), OdataLinesOf(odataResponse), rows,
                        Index(LineMap(map[], []), OdataEntries(OdataLinesOf(odataResponse))),
                        Index(LineMap(map[], []), SnowEntries(rows))))
  {
    OdataFoldIndexes(LineMap(map[], []), OdataLinesOf(odataResponse));
  }

  /** The line numbers reported for two indexed sides: ascending, each once, and
      exactly the numbers some entry of either side carries. */
  lemma ReportNumbers(oe: seq<Option<(real, OdataLine)>>, se: seq<Option<(real, SnowLine)>>, n: real)
    ensures var om := Index(LineMap(map[], []), oe);
            var sm := Index(LineMap(map[], []), se);
            var lines := LineReports(SortUnique(om.order + sm.order), om, sm);
            && (forall i, j :: 0 <= i < j < |lines| ==> lines[i].lineNumber < lines[j].lineNumber)
            && ((exists i :: 0 <= i < |lines| && lines[i].lineNumber == n) <==>
                (exists i :: 0 <= i < |oe| && oe[i].Some? && oe[i].value.0 == n) ||
                (exists j :: 0 <= j < |se| && se[j].Some? && se[j].value.0 == n))
  {
    var empty: LineMap<OdataLine> := LineMap(map[], []);
    var emptySnow: LineMap<SnowLine> := LineMap(map[], []);
    var om := Index(empty, oe);
    var sm := Index(emptySnow, se);
    assert empty.Valid() && emptySnow.Valid();
    var nums := SortUnique(om.order + sm.order);
    var lines := LineReports(nums, om, sm);
    IndexDomain(empty, oe, n);
    IndexDomain(emptySnow, se, n);
    assert (exists i :: 0 <= i < |lines| && lines[i].lineNumber == n) <==> n in nums by {
      if n in nums {
        var i :| 0 <= i < |nums| && nums[i] == n;
        assert lines[i].lineNumber == n;
      }
    }
    assert n in om.order + sm.order <==> n in om.order || n in sm.order;
  }

  /** A line number of the report is carried by some OData line or some Snowflake
      row, and every number they carry is reported, once, in ascending order. */
  lemma AnalysisLineNumbers(salesId: string, odataResponse: Value, rows: seq<Record>, n: real)
    requires Analysis(salesId, odataResponse, rows).Ok?
    ensures var lines := Analysis(salesId, odataResponse, rows).value.lines;
            var odataEntries := OdataEntries(OdataLinesOf(odataResponse));
            var snowEntries := SnowEntries(rows);
            && (forall i, j :: 0 <= i < j < |lines| ==> lines[i].lineNumber < lines[j].lineNumber)
            && ((exists i :: 0 <= i < |lines| && lines[i].lineNumber == n) <==>
                (exists i :: 0 <= i < |odataEntries| && odataEntries[i].Some? && odataEntries[i].value.0 == n) ||
                (exists j :: 0 <= j < |snowEntries| && snowEntries[j].Some? && snowEntries[j].value.0 == n))
  {
    var oe := OdataEntries(OdataLinesOf(odataResponse));
    var se := SnowEntries(rows);
    var om := Index(LineMap(map[], []), oe);
    var sm := Index(LineMap(map[], []), se);
    AnalysisOk(salesId, odataResponse, rows);
    assert Analysis(salesId, odataResponse, rows).value.lines == LineReports(SortUnique(om.order + sm.order), om, sm);
    ReportNumbers(oe, se, n);
  }

  /** The sides of a line reported for two indexed sides. */
  lemma ReportSides(oe: seq<Option<(real, OdataLine)>>, se: seq<Option<(real, SnowLine)>>, k: nat)
    requires var om := Index(LineMap(map[], []), oe);
             var sm := Index(LineMap(map[], []), se);
             k < |LineReports(SortUnique(om.order + sm.order), om, sm)|
    ensures var om := Index(LineMap(map[], []), oe);
            var sm := Index(LineMap(map[], []), se);
            var line := LineReports(SortUnique(om.order + sm.order), om, sm)[k];
            && (line.odata.None? <==> forall i :: 0 <= i < |oe| && oe[i].Some? ==> oe[i].value.0 != line.lineNumber)
            && (line.snowflake.None? <==> forall j :: 0 <= j < |se| && se[j].Some? ==> se[j].value.0 != line.lineNumber)
            && (forall i :: (0 <= i < |oe| && oe[i].Some? && oe[i].value.0 == line.lineNumber &&
                              forall j :: i < j < |oe| && oe[j].Some? ==> oe[j].value.0 != line.lineNumber) ==>
                  line.odata == Some(oe[i].value.1))
            && (forall i :: (0 <= i < |se| && se[i].Some? && se[i].value.0 == line.lineNumber &&
                              forall j :: i < j < |se| && se[j].Some? ==> se[j].value.0 != line.lineNumber) ==>
                  line.snowflake == Some(se[i].value.1))
  {
    var empty: LineMap<OdataLine> := LineMap(map[], []);
    var emptySnow: LineMap<SnowLine> := LineMap(map[], []);
    var om := Index(empty, oe);
    var sm := Index(emptySnow, se);
    var nums := SortUnique(om.order + sm.order);
    var line := LineReports(nums, om, sm)[k];
    var n := nums[k];
    IndexDomain(empty, oe, n);
    IndexDomain(emptySnow, se, n);
    forall i | 0 <= i < |oe| && oe[i].Some? && oe[i].value.0 == n &&
               (forall j :: i < j < |oe| && oe[j].Some? ==> oe[j].value.0 != n)
      ensures line.odata == Some(oe[i].value.1)
    {
      IndexLastWins(empty, oe, i);
    }
    forall i | 0 <= i < |se| && se[i].Some? && se[i].value.0 == n &&
               (forall j :: i < j < |se| && se[j].Some? ==> se[j].value.0 != n)
      ensures line.snowflake == Some(se[i].value.1)
    {
      IndexLastWins(emptySnow, se, i);
    }
  }

  /** Each side of a reported line is the last line of that side carrying its
      number, or absent when no line of that side carries it. */
  lemma AnalysisLineSides(salesId: string, odataResponse: Value, rows: seq<Record>, k: nat)
    requires Analysis(salesId, odataResponse, rows).Ok?
    requires k < |Analysis(salesId, odataResponse, rows).value.lines|
    ensures var line := Analysis(salesId, odataResponse, rows).value.lines[k];
            var odataEntries := OdataEntries(OdataLinesOf(odataResponse));
            var snowEntries := SnowEntries(rows);
            && (line.odata.None? <==> forall i :: 0 <= i < |odataEntries| && odataEntries[i].Some? ==> odataEntries[i].value.0 != line.lineNumber)
            && (line.snowflake.None? <==> forall j :: 0 <= j < |snowEntries| && snowEntries[j].Some? ==> snowEntries[j].value.0 != line.lineNumber)
            && (forall i :: (0 <= i < |odataEntries| && odataEntries[i].Some? && odataEntries[i].value.0 == line.lineNumber &&
                              forall j :: i < j < |odataEntries| && odataEntries[j].Some? ==> odataEntries[j].value.0 != line.lineNumber) ==>
                  line.odata == Some(odataEntries[i].value.1))
            && (forall i :: (0 <= i < |snowEntries| && snowEntries[i].Some? && snowEntries[i].value.0 == line.lineNumber &&
                              forall j :: i < j < |snowEntries| && snowEntries[j].Some? ==> snowEntries[j].value.0 != line.lineNumber) ==>
                  line.snowflake == Some(snowEntries[i].value.1))
  {
    var oe := OdataEntries(OdataLinesOf(odataResponse));
    var se := SnowEntries(rows);
    var om := Index(LineMap(map[], []), oe);
    var sm := Index(LineMap(map[], []), se);
    AnalysisOk(salesId, odataResponse, rows);
    assert Analysis(salesId, odataResponse, rows).value.lines == LineReports(SortUnique(om.order + sm.order), om, sm);
    ReportSides(oe, se, k);
  }

  /** A distinct list has as many elements as its set. */
  lemma {:induction false} DistinctCard(xs: seq<real>)
    requires forall i, j :: 0 <= i < j < |xs| ==> xs[i] != xs[j]
    ensures |set x | x in xs| == |xs|
  {
    if xs != [] {
      var prefix := xs[..|xs| - 1];
      DistinctCard(prefix);
      assert (set x | x in xs) == (set x | x in prefix) + {xs[|xs| - 1]};
      assert xs[|xs| - 1] !in prefix;
    }
  }

  /** A map's size is the length of its key order. */
  lemma ValidCard<V>(m: LineMap<V>)
    requires m.Valid()
    ensures |m.entries.Keys| == |m.order|
  {
    DistinctCard(m.order);
    assert m.entries.Keys == set x | x in m.order;
  }

  /** The summary counts distinct line numbers; the item and date buckets stay empty. */
  lemma AnalysisCounts(salesId: string, odataResponse: Value, rows: seq<Record>)
    requires Analysis(salesId, odataResponse, rows).Ok?
    ensures var summary := Analysis(salesId, odataResponse, rows).value.summary;
            && summary.odataLineCount == |Index(LineMap(map[], []), OdataEntries(OdataLinesOf(odataResponse))).entries.Keys|
            && summary.snowflakeLineCount == |Index(LineMap(map[], []), SnowEntries(rows)).entries.Keys|
            && summary.itemMismatches == [] && summary.dateMismatches == []
  {
    var empty: LineMap<OdataLine> := LineMap(map[], []);
    var emptySnow: LineMap<SnowLine> := LineMap(map[], []);
    AnalysisOk(salesId, odataResponse, rows);
    assert empty.Valid() && emptySnow.Valid();
    ValidCard(Index(empty, OdataEntries(OdataLinesOf(odataResponse))));
    ValidCard(Index(emptySnow, SnowEntries(rows)));
  }
}
