/**
 * Projection of an OData sales-line record onto the 88 columns of the processed
 * sales-line table, followed by the sales-order id, the caller's overrides, the
 * alias backfills and, last, the composite key.
 */
module ProcessedLinePayload {
  import opened Wrappers
  import opened JsString
  import opened JsValue
  import opened SalesLinePk

  const PROCESSED_COLUMNS: seq<string> := [
    "SALESLINEPK",
    "DEFINITIONGROUP",
    "EXECUTIONID",
    "ISSELECTED",
    "TRANSFERSTATUS",
    "INVOICEDATE",
    "INVOICEID",
    "SALESID",
    "EXCHRATE",
    "SALESPRICE",
    "QTY",
    "ORIGINALPRICE",
    "ITEMID",
    "LINENUM",
    "CURRENCYCODE",
    "INVENTTRANSID",
    "INVENTDIMID",
    "INVENTLOCATIONID",
    "INVENTLOCATIONNAME",
    "REFCUSTINVOICETRANSRECID",
    "SALESPOOLID",
    "PURCHORDERFORMNUM",
    "DEV_SALESID",
    "DEV_INVOICEID",
    "LINEDISC",
    "LINEPERCENT",
    "MULTILNDISC",
    "MULTILNPERCENT",
    "SUMLINEDISC",
    "COSTAMOUNTADJUSTMENT",
    "COSTAMOUNTPOSTED",
    "COSTAMOUNTPHYSICAL",
    "DISCPERCENT",
    "LINEAMOUNT",
    "LINEAMOUNTTAX",
    "CONTRIBUTIONMARGIN",
    "CONTRIBUTIONRATIO",
    "BARCODE",
    "LINEAMOUNTMST",
    "LINEAMOUNTTAXMST",
    "SUMLINEDISCMST",
    "TAXAMOUNTMST",
    "DISCOUNTCODE",
    "STAFFID",
    "STAFFNAME",
    "TENDERTYPEID",
    "LINEAMOUNTWITHTAXES",
    "CONFIGID",
    "INVENTBATCHID",
    "INVENTCOLORID",
    "INVENTSERIALID",
    "INVENTSITEID",
    "INVENTSIZEID",
    "INVENTSTATUSID",
    "INVENTSTYLEID",
    "INVENTVERSIONID",
    "WMSLOCATIONID",
    "ITEMNAME",
    "SALESUNIT",
    "TAXITEMGROUP",
    "TAXGROUP",
    "TENDERTYPENAME",
    "CANAL",
    "CECO",
    "CANALCODE",
    "CECOCODE",
    "EXTERNALITEMID",
    "PRICEGROUPLIST",
    "CREATEDTRANSACTIONDATE2",
    "DEFAULTDIMENSIONDISPLAYVALUE",
    "PARTITION",
    "CUSTACCOUNT",
    "ORGANIZATIONNAME",
    "INVENTORYLOTID",
    "TRANSACTIONID",
    "RETURNTRANSACTIONID",
    "SKU",
    "LINECREATIONSEQUENCENUMBER",
    "SHIPPINGWAREHOUSEID",
    "PRIMARYCONTACTEMAIL",
    "INVOICECODE",
    "ITEMIDSCANNED",
    "KEYBOARDITEMENTRY",
    "PRICECHANGE",
    "DATAAREAID",
    "SYNCSTARTDATETIME",
    "SNOWFLAKE_CREATED_AT",
    "SNOWFLAKE_UPDATED_AT"
  ]

  /** `COLUMN_INDEX.get(normalized)` for the index built from `columns`: the
      column whose normalised name is `normalized`, the last one when several are. */
  function ColumnFor(columns: seq<string>, normalized: string): (column: Option<string>)
    ensures column.Some? ==> column.value in columns && NormalizeKey(column.value) == normalized
    ensures column.None? ==> forall c :: c in columns ==> NormalizeKey(c) != normalized
  {
    if columns == [] then None
    else if NormalizeKey(columns[|columns| - 1]) == normalized then Some(columns[|columns| - 1])
    else
      var prefix := columns[..|columns| - 1];
      assert forall c :: c in columns ==> c in prefix || c == columns[|columns| - 1];
      ColumnFor(prefix, normalized)
  }

  /** The column an entry with key `key` lands in. */
  predicate MapsTo(columns: seq<string>, key: string, column: string) {
    ColumnFor(columns, NormalizeKey(key)) == Some(column)
  }

  /** One visit of the mapper's loop: the entry lands in its column, or is dropped. */
  function MapEntry(mapped: Record, e: Field, columns: seq<string>): (r: Record)
    ensures (forall k :: k in Keys(mapped) ==> k in columns) ==> forall k :: k in Keys(r) ==> k in columns
  {
    match ColumnFor(columns, NormalizeKey(e.key))
    case Some(column) => Set(mapped, column, e.val)
    case None => mapped
  }

  /** The mapped record after the given entries have been visited in order: it
      holds column names only. */
  function MapEntries(entries: Record, columns: seq<string>): (mapped: Record)
    ensures forall k :: k in Keys(mapped) ==> k in columns
  {
    if entries == [] then [] else MapEntry(MapEntries(entries[..|entries| - 1], columns), entries[|entries| - 1], columns)
  }

  /** One more entry visited by the mapper. */
  lemma MapEntriesStep(entries: Record, columns: seq<string>, i: nat)
    requires i < |entries|
    ensures MapEntries(entries[..i + 1], columns) == MapEntry(MapEntries(entries[..i], columns), entries[i], columns)
  {
    assert entries[..i + 1][..i] == entries[..i];
  }

  /** The mapper's loop over the entries of `odataRaw`, for any column list. */
  method MapOntoColumns(odataRaw: Value, columns: seq<string>) returns (mapped: Record)
    ensures mapped == MapEntries(Entries(odataRaw), columns)
  {
    var entries := Entries(odataRaw);
    mapped := [];
    var i := 0;
    while i < |entries|
      invariant 0 <= i <= |entries|
      invariant mapped == MapEntries(entries[..i], columns)
    {
      MapEntriesStep(entries, columns, i);
      var normalized := NormalizeKey(entries[i].key);
      var column := ColumnFor(columns, normalized);
      if column.Some? {
        mapped := Set(mapped, column.value, entries[i].val);
      }
      i := i + 1;
    }
    assert entries[..i] == entries;
  }

  /** `mapOdataRowToProcessedColumns` */
  method MapOdataRowToProcessedColumns(odataRaw: Value) returns (mapped: Record)
    ensures mapped == MapEntries(Entries(odataRaw), PROCESSED_COLUMNS)
    ensures forall k :: k in Keys(mapped) ==> k in PROCESSED_COLUMNS
  {
    mapped := MapOntoColumns(odataRaw, PROCESSED_COLUMNS);
  }

  /** A column no entry maps to is absent from the mapped record. */
  lemma {:induction false} MapEntriesUnmatched(entries: Record, columns: seq<string>, column: string)
    requires forall i :: 0 <= i < |entries| ==> !MapsTo(columns, entries[i].key, column)
    ensures Get(MapEntries(entries, columns), column) == Undef
  {
    if entries != [] {
      var prefix := entries[..|entries| - 1];
      assert forall i :: 0 <= i < |prefix| ==> prefix[i] == entries[i];
      MapEntriesUnmatched(prefix, columns, column);
    }
  }

  /** A column holds the value of the last entry whose normalised key names it;
      that entry's key and the column normalise alike. */
  lemma {:induction false} MapEntriesMatched(entries: Record, columns: seq<string>, column: string, i: nat)
    requires i < |entries| && MapsTo(columns, entries[i].key, column)
    requires forall j :: i < j < |entries| ==> !MapsTo(columns, entries[j].key, column)
    ensures Get(MapEntries(entries, columns), column) == entries[i].val
    ensures NormalizeKey(entries[i].key) == NormalizeKey(column)
  {
    if i < |entries| - 1 {
      var prefix := entries[..|entries| - 1];
      assert prefix[i] == entries[i];
      MapEntriesMatched(prefix, columns, column, i);
    }
  }

  /** A value that is not an object (null included) maps to the empty record. */
  lemma NonObjectMapsToEmpty(odataRaw: Value, columns: seq<string>)
    requires !IsObjectLike(odataRaw)
    ensures MapEntries(Entries(odataRaw), columns) == []
  {
  }

  // ---------------------------------------------------------------- payload

  /** The destructuring default `= {}`, which only `undefined` triggers. */
  function DefaultObject(v: Value): (r: Value)
    ensures v.Undef? ==> r == Obj([])
    ensures !v.Undef? ==> r == v
  {
    if v.Undef? then Obj([]) else v
  }

  /** A truthy sales id always sets `SALESID`, and `DEV_SALESID` only while it is
      still falsy; a falsy one touches neither. */
  function ApplySalesId(payload: Record, salesId: Value): (r: Record)
    ensures Truthy(salesId) ==> Get(r, "SALESID") == salesId
    ensures Truthy(salesId) ==>
              Get(r, "DEV_SALESID") == if Truthy(Get(payload, "DEV_SALESID")) then Get(payload, "DEV_SALESID") else salesId
    ensures forall k :: (k != "SALESID" && k != "DEV_SALESID") || !Truthy(salesId) ==> Get(r, k) == Get(payload, k)
  {
    if Truthy(salesId) then
      var p := Set(payload, "SALESID", salesId);
      if Truthy(Get(p, "DEV_SALESID")) then p else Set(p, "DEV_SALESID", salesId)
    else payload
  }

  /** The overrides, visited in order; an undefined value is skipped. */
  function ApplyOverrides(payload: Record, overrides: Record): Record {
    if overrides == [] then payload
    else
      var p := ApplyOverrides(payload, overrides[..|overrides| - 1]);
      var e := overrides[|overrides| - 1];
      if e.val.Undef? then p else Set(p, e.key, e.val)
  }

  /** One more override on top of the ones already applied. */
  lemma OverrideStep(payload: Record, overrides: Record, i: nat, before: Record)
    requires i < |overrides| && before == ApplyOverrides(payload, overrides[..i])
    ensures ApplyOverrides(payload, overrides[..i + 1]) ==
            if overrides[i].val.Undef? then before else Set(before, overrides[i].key, overrides[i].val)
  {
    assert overrides[..i + 1][..i] == overrides[..i];
  }

  /** Every override that is not undefined overwrites its key, null included. */
  lemma {:induction false} OverrideWins(payload: Record, overrides: Record, i: nat)
    requires i < |overrides| && !overrides[i].val.Undef?
    requires forall j :: i < j < |overrides| ==> overrides[j].key != overrides[i].key || overrides[j].val.Undef?
    ensures Get(ApplyOverrides(payload, overrides), overrides[i].key) == overrides[i].val
  {
    if i < |overrides| - 1 {
      OverrideWins(payload, overrides[..|overrides| - 1], i);
    }
  }

  /** A key no defined override names keeps its value. */
  lemma {:induction false} OverrideSkipped(payload: Record, overrides: Record, k: string)
    requires forall j :: 0 <= j < |overrides| ==> overrides[j].key != k || overrides[j].val.Undef?
    ensures Get(ApplyOverrides(payload, overrides), k) == Get(payload, k)
  {
    if overrides != [] {
      OverrideSkipped(payload, overrides[..|overrides| - 1], k);
    }
  }

  /** A still-falsy column is filled from the exact-cased OData alias when that is
      truthy; reading the alias of a null record throws. */
  function Backfill(payload: Record, odataRaw: Value, column: string, alias: string): (r: Result<Record>)
    ensures Truthy(Get(payload, column)) ==> r == Ok(payload)
    ensures !Truthy(Get(payload, column)) && Nullish(odataRaw) ==> r.Err?
    ensures !Truthy(Get(payload, column)) && !Nullish(odataRaw) ==>
      var v := Prop(odataRaw, alias).value;
      r == Ok(if Truthy(v) then Set(payload, column, v) else payload)
  {
    if Truthy(Get(payload, column)) then Ok(payload)
    else
      match Prop(odataRaw, alias)
      case Err(e) => Err(e)
      case Ok(v) => Ok(if Truthy(v) then Set(payload, column, v) else payload)
  }

  /** The composite key of the payload, stored under `SALESLINEPK`. */
  function StampKey(payload: Record): (r: Record)
    ensures Get(r, "SALESLINEPK") == Str(BuildSalesLinePk(payload))
    ensures forall k :: k != "SALESLINEPK" ==> Get(r, k) == Get(payload, k)
  {
    Set(payload, "SALESLINEPK", Str(BuildSalesLinePk(payload)))
  }

  /** The backfill list of `buildProcessedPayload`: column, then OData alias. */
  const BACKFILLS: seq<(string, string)> := [
    ("LINECREATIONSEQUENCENUMBER", "LineCreationSequenceNumber"),
    ("LINENUM", "LineNum"),
    ("INVOICEDATE", "InvoiceDate")
  ]

  /** The backfills applied in order, stopping at the first that throws. */
  function BackfillAll(payload: Record, odataRaw: Value, pairs: seq<(string, string)>): Result<Record>
    decreases |pairs|
  {
    if pairs == [] then Ok(payload)
    else
      match Backfill(payload, odataRaw, pairs[0].0, pairs[0].1)
      case Err(e) => Err(e)
      case Ok(p) => BackfillAll(p, odataRaw, pairs[1..])
  }

  /** The payload once the sales id and the overrides are in, before the backfills. */
  function Prepared(mapped: Record, salesId: Value, overrides: Value): Record {
    ApplyOverrides(ApplySalesId(mapped, salesId), Entries(DefaultObject(overrides)))
  }

  /** `buildProcessedPayload`, stage by stage, from the mapped record onwards. */
  function PayloadSpec(mapped: Record, salesId: Value, odataRaw: Value, overrides: Value): Result<Record> {
    var p := Prepared(mapped, salesId, overrides);
    match BackfillAll(p, DefaultObject(odataRaw), BACKFILLS)
    case Err(e) => Err(e)
    case Ok(q) => Ok(StampKey(q))
  }

  /** What a successful backfill leaves in `column`: the payload's own value when
      truthy, else the alias value when that is truthy. */
  predicate FilledFrom(out: Record, p: Record, raw: Value, column: string, alias: string) {
    if Truthy(Get(p, column)) then Get(out, column) == Get(p, column)
    else !Nullish(raw) && Get(out, column) == (var v := Prop(raw, alias).value; if Truthy(v) then v else Get(p, column))
  }

  /** The first backfill of a list, then the rest. */
  lemma BackfillCons(p: Record, raw: Value, x: (string, string), rest: seq<(string, string)>)
    ensures var b := Backfill(p, raw, x.0, x.1);
            BackfillAll(p, raw, [x] + rest) == if b.Err? then Err(b.error) else BackfillAll(b.value, raw, rest)
  {
    assert ([x] + rest)[1..] == rest;
  }

  /** Three backfills on distinct columns throw exactly when the record is nullish
      and one of the columns is still falsy. */
  lemma BackfillThreeFails(p: Record, raw: Value, c1: string, a1: string, c2: string, a2: string, c3: string, a3: string)
    requires c1 != c2 && c1 != c3 && c2 != c3
    ensures BackfillAll(p, raw, [(c1, a1), (c2, a2), (c3, a3)]).Err? <==>
            Nullish(raw) && !(Truthy(Get(p, c1)) && Truthy(Get(p, c2)) && Truthy(Get(p, c3)))
  {
    var s3: seq<(string, string)> := [(c3, a3)];
    var s2 := [(c2, a2)] + s3;
    assert [(c1, a1)] + s2 == [(c1, a1), (c2, a2), (c3, a3)];
    BackfillCons(p, raw, (c1, a1), s2);
    var b1 := Backfill(p, raw, c1, a1);
    if b1.Ok? {
      BackfillStep(p, raw, c1, a1);
      BackfillCons(b1.value, raw, (c2, a2), s3);
      var b2 := Backfill(b1.value, raw, c2, a2);
      if b2.Ok? {
        BackfillStep(b1.value, raw, c2, a2);
        BackfillCons(b2.value, raw, (c3, a3), []);
        assert [(c3, a3)] + [] == s3;
      }
    }
  }

  /** Three successful backfills on distinct columns: each fills its own column
      when still falsy and nothing else changes. */
  lemma BackfillThreeEffect(p: Record, raw: Value, c1: string, a1: string, c2: string, a2: string, c3: string, a3: string)
    requires c1 != c2 && c1 != c3 && c2 != c3
    requires BackfillAll(p, raw, [(c1, a1), (c2, a2), (c3, a3)]).Ok?
    ensures var q := BackfillAll(p, raw, [(c1, a1), (c2, a2), (c3, a3)]).value;
            && FilledFrom(q, p, raw, c1, a1)
            && FilledFrom(q, p, raw, c2, a2)
            && FilledFrom(q, p, raw, c3, a3)
            && forall k :: k != c1 && k != c2 && k != c3 ==> Get(q, k) == Get(p, k)
  {
    BackfillThreeSteps(p, raw, c1, a1, c2, a2, c3, a3);
    var p1 := Backfill(p, raw, c1, a1).value;
    BackfillStep(p, raw, c1, a1);
    var p2 := Backfill(p1, raw, c2, a2).value;
    BackfillStep(p1, raw, c2, a2);
    var p3 := Backfill(p2, raw, c3, a3).value;
    BackfillStep(p2, raw, c3, a3);
    FilledRebased(p3, p1, p, raw, c2, a2);
    FilledRebased(p3, p2, p, raw, c3, a3);
    FilledKept(p1, p3, p, raw, c1, a1);
    FilledKept(p2, p3, p, raw, c2, a2);
  }

  /** A successful run of three backfills is the three single backfills, one after the other. */
  lemma BackfillThreeSteps(p: Record, raw: Value, c1: string, a1: string, c2: string, a2: string, c3: string, a3: string)
    requires BackfillAll(p, raw, [(c1, a1), (c2, a2), (c3, a3)]).Ok?
    ensures Backfill(p, raw, c1, a1).Ok?
    ensures var p1 := Backfill(p, raw, c1, a1).value;
            && Backfill(p1, raw, c2, a2).Ok?
            && Backfill(Backfill(p1, raw, c2, a2).value, raw, c3, a3).Ok?
            && BackfillAll(p, raw, [(c1, a1), (c2, a2), (c3, a3)])
               == Backfill(Backfill(p1, raw, c2, a2).value, raw, c3, a3)
  {
    var s3: seq<(string, string)> := [(c3, a3)];
    var s2 := [(c2, a2)] + s3;
    assert [(c1, a1)] + s2 == [(c1, a1), (c2, a2), (c3, a3)];
    assert [(c3, a3)] + [] == s3;
    BackfillCons(p, raw, (c1, a1), s2);
    var p1 := Backfill(p, raw, c1, a1).value;
    BackfillCons(p1, raw, (c2, a2), s3);
    var p2 := Backfill(p1, raw, c2, a2).value;
    BackfillCons(p2, raw, (c3, a3), []);
  }

  /** What a backfill left in its column stays there while the column is not touched again. */
  lemma FilledKept(q: Record, r: Record, p: Record, raw: Value, column: string, alias: string)
    requires FilledFrom(q, p, raw, column, alias) && Get(r, column) == Get(q, column)
    ensures FilledFrom(r, p, raw, column, alias)
  {
  }

  /** A backfill applied to a record that agrees with `p` on its column fills it as from `p`. */
  lemma FilledRebased(q: Record, p1: Record, p: Record, raw: Value, column: string, alias: string)
    requires FilledFrom(q, p1, raw, column, alias) && Get(p1, column) == Get(p, column)
    ensures FilledFrom(q, p, raw, column, alias)
  {
  }

  /** The three backfills only ever throw on a null OData record, and then exactly
      when one of the columns is still falsy. */
  lemma PayloadFailsIff(mapped: Record, salesId: Value, odataRaw: Value, overrides: Value)
    ensures PayloadSpec(mapped, salesId, odataRaw, overrides).Err? <==>
            var p := Prepared(mapped, salesId, overrides);
            odataRaw.Null? &&
            !(Truthy(Get(p, "LINECREATIONSEQUENCENUMBER")) && Truthy(Get(p, "LINENUM")) && Truthy(Get(p, "INVOICEDATE")))
  {
    var p := Prepared(mapped, salesId, overrides);
    BackfillThreeFails(p, DefaultObject(odataRaw), "LINECREATIONSEQUENCENUMBER", "LineCreationSequenceNumber",
                       "LINENUM", "LineNum", "INVOICEDATE", "InvoiceDate");
  }

  /** A successful payload keeps every prepared column except the three backfilled
      ones and the key; each backfilled column is filled only when still falsy. */
  lemma PayloadBackfills(mapped: Record, salesId: Value, odataRaw: Value, overrides: Value)
    requires PayloadSpec(mapped, salesId, odataRaw, overrides).Ok?
    ensures var p := Prepared(mapped, salesId, overrides);
            var out := PayloadSpec(mapped, salesId, odataRaw, overrides).value;
            var raw := DefaultObject(odataRaw);
            && FilledFrom(out, p, raw, "LINECREATIONSEQUENCENUMBER", "LineCreationSequenceNumber")
            && FilledFrom(out, p, raw, "LINENUM", "LineNum")
            && FilledFrom(out, p, raw, "INVOICEDATE", "InvoiceDate")
            && forall k :: k != "LINECREATIONSEQUENCENUMBER" && k != "LINENUM" && k != "INVOICEDATE" && k != "SALESLINEPK" ==>
                 Get(out, k) == Get(p, k)
  {
    var p := Prepared(mapped, salesId, overrides);
    var raw := DefaultObject(odataRaw);
    BackfillThreeEffect(p, raw, "LINECREATIONSEQUENCENUMBER", "LineCreationSequenceNumber",
                        "LINENUM", "LineNum", "INVOICEDATE", "InvoiceDate");
    var q := BackfillAll(p, raw, BACKFILLS).value;
    assert PayloadSpec(mapped, salesId, odataRaw, overrides) == Ok(StampKey(q));
    assert "INVOICEDATE" != "SALESLINEPK" by { assert "INVOICEDATE"[0] != "SALESLINEPK"[0]; }
    StampKeepsFilled(p, raw, q, StampKey(q), "SALESLINEPK", "LINECREATIONSEQUENCENUMBER", "LineCreationSequenceNumber",
                     "LINENUM", "LineNum", "INVOICEDATE", "InvoiceDate");
  }

  /** A later stage that leaves the three backfilled columns alone keeps what the
      backfills put there. */
  lemma StampKeepsFilled(p: Record, raw: Value, q: Record, out: Record, key: string,
                         c1: string, a1: string, c2: string, a2: string, c3: string, a3: string)
    requires c1 != key && c2 != key && c3 != key
    requires FilledFrom(q, p, raw, c1, a1) && FilledFrom(q, p, raw, c2, a2) && FilledFrom(q, p, raw, c3, a3)
    requires forall k :: k != c1 && k != c2 && k != c3 ==> Get(q, k) == Get(p, k)
    requires forall k :: k != key ==> Get(out, k) == Get(q, k)
    ensures FilledFrom(out, p, raw, c1, a1) && FilledFrom(out, p, raw, c2, a2) && FilledFrom(out, p, raw, c3, a3)
    ensures forall k :: k != c1 && k != c2 && k != c3 && k != key ==> Get(out, k) == Get(p, k)
  {
    assert Get(out, c1) == Get(q, c1) && Get(out, c2) == Get(q, c2) && Get(out, c3) == Get(q, c3);
  }

  /** One successful backfill fills its own column and no other. */
  lemma BackfillStep(p: Record, raw: Value, column: string, alias: string)
    requires Backfill(p, raw, column, alias).Ok?
    ensures FilledFrom(Backfill(p, raw, column, alias).value, p, raw, column, alias)
    ensures forall k :: k != column ==> Get(Backfill(p, raw, column, alias).value, k) == Get(p, k)
  {
  }

  /** The payload's `SALESLINEPK` is the key of the payload itself: stamping the
      key does not change it. */
  lemma PayloadKeyStamped(mapped: Record, salesId: Value, odataRaw: Value, overrides: Value)
    requires PayloadSpec(mapped, salesId, odataRaw, overrides).Ok?
    ensures var out := PayloadSpec(mapped, salesId, odataRaw, overrides).value;
            Get(out, "SALESLINEPK") == Str(BuildSalesLinePk(out))
  {
    var p := Prepared(mapped, salesId, overrides);
    var q := BackfillAll(p, DefaultObject(odataRaw), BACKFILLS).value;
    SalesLinePkColumnUnrelated();
    SetUnrelatedIrrelevant(q, "SALESLINEPK", Str(BuildSalesLinePk(q)));
  }

  /** What `buildProcessedPayload` returns or throws. */
  function ProcessedPayload(salesId: Value, odataRaw: Value, overrides: Value): Result<Record> {
    PayloadSpec(MapEntries(Entries(DefaultObject(odataRaw)), PROCESSED_COLUMNS), salesId, odataRaw, overrides)
  }

  /** `buildProcessedPayload` */
  method BuildProcessedPayload(salesId: Value, odataRaw: Value, overrides: Value) returns (r: Result<Record>)
    ensures r == ProcessedPayload(salesId, odataRaw, overrides)
  {
    var mapped := MapOdataRowToProcessedColumns(DefaultObject(odataRaw));
    r := CompletePayload(mapped, salesId, odataRaw, overrides);
  }

  /** The part of `buildProcessedPayload` that follows the mapper. */
  method CompletePayload(mapped: Record, salesId: Value, odataRaw: Value, overrides: Value) returns (r: Result<Record>)
    ensures r == PayloadSpec(mapped, salesId, odataRaw, overrides)
  {
    var payload := SalesIdStep(mapped, salesId);
    payload := OverrideLoop(payload, Entries(DefaultObject(overrides)));
    var filled := BackfillLoop(payload, DefaultObject(odataRaw));
    if filled.Err? {
      return Err(filled.error);
    }
    payload := filled.value;
    payload := Set(payload, "SALESLINEPK", Str(BuildSalesLinePk(payload)));
    return Ok(payload);
  }

  /** The sales-id step of `buildProcessedPayload`. */
  method SalesIdStep(mapped: Record, salesId: Value) returns (payload: Record)
    ensures payload == ApplySalesId(mapped, salesId)
  {
    payload := mapped;
    if Truthy(salesId) {
      payload := Set(payload, "SALESID", salesId);
      if !Truthy(Get(payload, "DEV_SALESID")) {
        payload := Set(payload, "DEV_SALESID", salesId);
      }
    }
  }

  /** The overrides loop of `buildProcessedPayload`. */
  method OverrideLoop(start: Record, entries: Record) returns (payload: Record)
    ensures payload == ApplyOverrides(start, entries)
  {
    payload := start;
    var i := 0;
    while i < |entries|
      invariant 0 <= i <= |entries|
      invariant payload == ApplyOverrides(start, entries[..i])
    {
      OverrideStep(start, entries, i, payload);
      if !entries[i].val.Undef? {
        payload := Set(payload, entries[i].key, entries[i].val);
      }
      i := i + 1;
    }
    assert entries[..i] == entries;
  }

  /** The backfill loop of `buildProcessedPayload`; it stops at the first alias
      read that throws. */
  method BackfillLoop(prepared: Record, raw: Value) returns (r: Result<Record>)
    ensures r == BackfillAll(prepared, raw, BACKFILLS)
  {
    var payload := prepared;
    var backfills := BACKFILLS;
    var k := 0;
    while k < |backfills|
      invariant 0 <= k <= |backfills|
      invariant BackfillAll(payload, raw, backfills[k..]) == BackfillAll(prepared, raw, backfills)
    {
      var (column, alias) := backfills[k];
      assert backfills[k..][1..] == backfills[k + 1..];
      if !Truthy(Get(payload, column)) {
        var v := Prop(raw, alias);
        if v.Err? {
          return Err(v.error);
        }
        if Truthy(v.value) {
          payload := Set(payload, column, v.value);
        }
      }
      k := k + 1;
    }
    return Ok(payload);
  }
}
