/** The line-download page: the filter form for each source, the query
    parameters built from it, the date-range check and the render cap. */
module LineDownload {
  import opened Wrappers
  import opened JsString
  import opened JsValue
  import opened Seqs

  /** One source the page can query: its id, its filter inputs and the two
      inputs that bound its date range. */
  datatype SourceConfig = SourceConfig(id: string, filters: seq<string>, dateFrom: string, dateTo: string)

  const VISTA := SourceConfig("vista",
    ["accountingDateFrom", "accountingDateTo", "sourceFlag", "salesId", "canal", "invoiceId"],
    "accountingDateFrom", "accountingDateTo")

  const PROCESADA := SourceConfig("procesada",
    ["invoiceDateFrom", "invoiceDateTo", "salesId", "invoiceId"],
    "invoiceDateFrom", "invoiceDateTo")

  /** `SOURCE_CONFIG[source] || SOURCE_CONFIG.vista` */
  function ConfigFor(source: string): (c: SourceConfig)
    ensures c == VISTA || c == PROCESADA
    ensures c.id == source || (source != "vista" && source != "procesada" && c == VISTA)
  {
    if source == "procesada" then PROCESADA else VISTA
  }

  /** The keys every form carries besides the filters. */
  predicate Reserved(k: string) {
    k == "source" || k == "limit" || k == "salesIdMode" || k == "salesIdNonEmpty"
  }

  predicate Distinct(names: seq<string>) {
    forall i, j :: 0 <= i < j < |names| ==> names[i] != names[j]
  }

  /** The filter names of a source are distinct and none is a reserved key. */
  predicate WellFormed(c: SourceConfig) {
    && Distinct(c.filters)
    && (forall i :: 0 <= i < |c.filters| ==> !Reserved(c.filters[i]))
    && c.dateFrom in c.filters && c.dateTo in c.filters
  }

  lemma SourcesWellFormed()
    ensures WellFormed(VISTA) && WellFormed(PROCESADA)
  {
    FiltersWellFormed(VISTA.filters);
    FiltersWellFormed(PROCESADA.filters);
    assert VISTA.filters[0] == VISTA.dateFrom && VISTA.filters[1] == VISTA.dateTo;
    assert PROCESADA.filters[0] == PROCESADA.dateFrom && PROCESADA.filters[1] == PROCESADA.dateTo;
  }

  lemma FiltersWellFormed(filters: seq<string>)
    requires filters == VISTA.filters || filters == PROCESADA.filters
    ensures Distinct(filters) && forall i :: 0 <= i < |filters| ==> !Reserved(filters[i])
  {
  }

  // ---------------------------------------------------------------- initial form

  lemma SetKeyMember(r: Record, k: string, v: Value, k': string)
    ensures k' in Keys(Set(r, k, v)) <==> k' in Keys(r) || k' == k
  {
  }

  /** `names.forEach((name) => { base[name] = ''; })` */
  function Blanked(base: Record, names: seq<string>): Record {
    if names == [] then base
    else Set(Blanked(base, names[..|names| - 1]), names[|names| - 1], Str(""))
  }

  lemma BlankedStep(base: Record, names: seq<string>, i: nat)
    requires i < |names|
    ensures Blanked(base, names[..i + 1]) == Set(Blanked(base, names[..i]), names[i], Str(""))
  {
    PrefixStep(names, i);
  }

  lemma {:induction false} BlankedGet(base: Record, names: seq<string>, k: string)
    ensures Get(Blanked(base, names), k) == if k in names then Str("") else Get(base, k)
  {
    if names != [] {
      BlankedGet(base, names[..|names| - 1], k);
      InLast(names, k);
    }
  }

  lemma {:induction false} BlankedKeys(base: Record, names: seq<string>, k: string)
    ensures k in Keys(Blanked(base, names)) <==> k in Keys(base) || k in names
  {
    if names != [] {
      BlankedKeys(base, names[..|names| - 1], k);
      SetKeyMember(Blanked(base, names[..|names| - 1]), names[|names| - 1], Str(""), k);
      InLast(names, k);
    }
  }

  /** New names go last, in order, after the keys the base already had. */
  lemma {:induction false} BlankedOrder(base: Record, names: seq<string>)
    requires Distinct(names)
    requires forall i :: 0 <= i < |names| ==> names[i] !in Keys(base)
    ensures Keys(Blanked(base, names)) == Keys(base) + names
  {
    if names != [] {
      var init := names[..|names| - 1];
      var last := names[|names| - 1];
      BlankedOrder(base, init);
      BlankedKeys(base, init, last);
      InLast(names, last);
      assert last !in init;
      AppendLast(Keys(base), names);
    }
  }

  /** The two fields every form starts with. */
  function FormBase(config: SourceConfig, previousLimit: Value): (r: Record)
    ensures Keys(r) == ["source", "limit"]
  {
    var r := [Field("source", Str(config.id)), Field("limit", Coalesce(previousLimit, Str("")))];
    assert Keys(r) == [r[0].key] + Keys(r[1..]);
    r
  }

  /** The form `buildInitialFilters` builds for one source. */
  function Form(config: SourceConfig, previousLimit: Value): Record {
    Set(Blanked(FormBase(config, previousLimit), config.filters), "salesIdMode", Str("non-empty"))
  }

  /** What `buildInitialFilters(source, previousLimit)` returns. */
  function InitialFilters(source: string, previousLimit: Value): Record {
    Form(ConfigFor(source), previousLimit)
  }

  lemma FormFixedValues(config: SourceConfig, previousLimit: Value)
    requires "source" !in config.filters && "limit" !in config.filters
    ensures var f := Form(config, previousLimit);
            && Get(f, "source") == Str(config.id)
            && Get(f, "limit") == Coalesce(previousLimit, Str(""))
            && Get(f, "salesIdMode") == Str("non-empty")
  {
    BlankedGet(FormBase(config, previousLimit), config.filters, "source");
    BlankedGet(FormBase(config, previousLimit), config.filters, "limit");
  }

  lemma FormFilterValues(config: SourceConfig, previousLimit: Value)
    requires "salesIdMode" !in config.filters
    ensures forall n :: n in config.filters ==> Get(Form(config, previousLimit), n) == Str("")
  {
    forall n | n in config.filters ensures Get(Form(config, previousLimit), n) == Str("") {
      BlankedGet(FormBase(config, previousLimit), config.filters, n);
    }
  }

  lemma ReservedAbsent(config: SourceConfig)
    requires WellFormed(config)
    ensures "source" !in config.filters && "limit" !in config.filters
    ensures "salesIdMode" !in config.filters && "salesIdNonEmpty" !in config.filters
  {
    assert forall i :: 0 <= i < |config.filters| ==> !Reserved(config.filters[i]);
  }

  lemma FormValues(config: SourceConfig, previousLimit: Value)
    requires WellFormed(config)
    ensures var f := Form(config, previousLimit);
            && Get(f, "source") == Str(config.id)
            && Get(f, "limit") == Coalesce(previousLimit, Str(""))
            && Get(f, "salesIdMode") == Str("non-empty")
            && (forall n :: n in config.filters ==> Get(f, n) == Str(""))
  {
    ReservedAbsent(config);
    FormFixedValues(config, previousLimit);
    FormFilterValues(config, previousLimit);
  }

  lemma BaseKeysAbsent(config: SourceConfig, previousLimit: Value)
    requires "source" !in config.filters && "limit" !in config.filters
    ensures forall i :: 0 <= i < |config.filters| ==> config.filters[i] !in Keys(FormBase(config, previousLimit))
  {
  }

  lemma FormKeys(config: SourceConfig, previousLimit: Value)
    requires Distinct(config.filters)
    requires "source" !in config.filters && "limit" !in config.filters && "salesIdMode" !in config.filters
    ensures Keys(Form(config, previousLimit)) == ["source", "limit"] + config.filters + ["salesIdMode"]
  {
    var base := FormBase(config, previousLimit);
    BaseKeysAbsent(config, previousLimit);
    BlankedOrder(base, config.filters);
    assert "salesIdMode" !in Keys(base) + config.filters;
  }

  /** A fresh form: the known source (or `vista`), the kept limit, every filter of
      that source blank and the order id required to be non-empty; in this key order. */
  lemma InitialFiltersShape(source: string, previousLimit: Value)
    ensures var f := InitialFilters(source, previousLimit);
            var config := ConfigFor(source);
            && Get(f, "source") == Str(config.id)
            && Get(f, "limit") == Coalesce(previousLimit, Str(""))
            && Get(f, "salesIdMode") == Str("non-empty")
            && (forall n :: n in config.filters ==> Get(f, n) == Str(""))
            && Keys(f) == ["source", "limit"] + config.filters + ["salesIdMode"]
  {
    SourcesWellFormed();
    ReservedAbsent(ConfigFor(source));
    FormValues(ConfigFor(source), previousLimit);
    FormKeys(ConfigFor(source), previousLimit);
  }

  /** `buildInitialFilters(source, previousLimit)` */
  method BuildInitialFilters(source: string, previousLimit: Value) returns (base: Record)
    ensures base == InitialFilters(source, previousLimit)
  {
    var config := ConfigFor(source);
    base := FormBase(config, previousLimit);
    ghost var start := base;
    var i := 0;
    while i < |config.filters|
      invariant 0 <= i <= |config.filters|
      invariant base == Blanked(start, config.filters[..i])
    {
      BlankedStep(start, config.filters, i);
      base := Set(base, config.filters[i], Str(""));
      i := i + 1;
    }
    PrefixWhole(config.filters);
    base := Set(base, "salesIdMode", Str("non-empty"));
  }

  // ---------------------------------------------------------------- request parameters

  /** `value !== undefined && value !== null && String(value).trim().length > 0` */
  predicate Given(v: Value) {
    !Nullish(v) && Trim(ToStr(v)) != ""
  }

  /** `filters.limit && String(filters.limit).trim().length > 0` */
  predicate LimitGiven(v: Value) {
    Truthy(v) && Trim(ToStr(v)) != ""
  }

  /** The filters' loop: every given filter of the source copied into `params`. */
  function Copied(params: Record, filters: Record, names: seq<string>): Record {
    if names == [] then params
    else
      var before := Copied(params, filters, names[..|names| - 1]);
      var name := names[|names| - 1];
      if Given(Get(filters, name)) then Set(before, name, Get(filters, name)) else before
  }

  lemma CopiedStep(params: Record, filters: Record, names: seq<string>, i: nat)
    requires i < |names|
    ensures Copied(params, filters, names[..i + 1])
            == if Given(Get(filters, names[i])) then Set(Copied(params, filters, names[..i]), names[i], Get(filters, names[i]))
               else Copied(params, filters, names[..i])
  {
    PrefixStep(names, i);
  }

  lemma {:induction false} CopiedGet(params: Record, filters: Record, names: seq<string>, k: string)
    ensures Get(Copied(params, filters, names), k)
            == if k in names && Given(Get(filters, k)) then Get(filters, k) else Get(params, k)
    ensures k in Keys(Copied(params, filters, names)) ==> k in Keys(params) || k in names
  {
    if names != [] {
      var init := names[..|names| - 1];
      var name := names[|names| - 1];
      CopiedGet(params, filters, init, k);
      InLast(names, k);
      if Given(Get(filters, name)) {
        SetKeyMember(Copied(params, filters, init), name, Get(filters, name), k);
      }
    }
  }

  /** `salesIdMode` read from the form, `non-empty` when unset. */
  function SalesIdMode(filters: Record): Value {
    Or(Get(filters, "salesIdMode"), Str("non-empty"))
  }

  /** `params` after the limit step. */
  function WithLimit(filters: Record, config: SourceConfig): (r: Record)
    ensures Get(r, "source") == Str(config.id)
    ensures Get(r, "limit") == if LimitGiven(Get(filters, "limit")) then Get(filters, "limit") else Undef
    ensures forall k :: k in Keys(r) ==> k == "source" || k == "limit"
  {
    var start := [Field("source", Str(config.id))];
    assert Keys(start) == ["source"];
    if LimitGiven(Get(filters, "limit")) then Set(start, "limit", Get(filters, "limit")) else start
  }

  /** `params` after the filters' loop. */
  function CopiedParams(filters: Record, config: SourceConfig): Record {
    Copied(WithLimit(filters, config), filters, config.filters)
  }

  lemma CopiedFixed(filters: Record, config: SourceConfig)
    requires "source" !in config.filters && "limit" !in config.filters && "salesIdNonEmpty" !in config.filters
    ensures var c := CopiedParams(filters, config);
            && Get(c, "source") == Str(config.id)
            && Get(c, "limit") == (if LimitGiven(Get(filters, "limit")) then Get(filters, "limit") else Undef)
            && Get(c, "salesIdNonEmpty") == Undef
  {
    var w := WithLimit(filters, config);
    CopiedGet(w, filters, config.filters, "source");
    CopiedGet(w, filters, config.filters, "limit");
    CopiedGet(w, filters, config.filters, "salesIdNonEmpty");
  }

  lemma CopiedFilterValue(filters: Record, config: SourceConfig, n: string)
    requires n in config.filters && n != "source" && n != "limit"
    ensures Get(CopiedParams(filters, config), n) == if Given(Get(filters, n)) then Get(filters, n) else Undef
  {
    var w := WithLimit(filters, config);
    CopiedGet(w, filters, config.filters, n);
    assert n !in Keys(w);
  }

  lemma CopiedFilterValues(filters: Record, config: SourceConfig)
    requires "source" !in config.filters && "limit" !in config.filters
    ensures forall n :: n in config.filters ==>
              Get(CopiedParams(filters, config), n) == if Given(Get(filters, n)) then Get(filters, n) else Undef
  {
    forall n | n in config.filters
      ensures Get(CopiedParams(filters, config), n) == if Given(Get(filters, n)) then Get(filters, n) else Undef
    {
      CopiedFilterValue(filters, config, n);
    }
  }

  lemma CopiedKeys(filters: Record, config: SourceConfig)
    ensures forall k :: k in Keys(CopiedParams(filters, config)) ==> k == "source" || k == "limit" || k in config.filters
  {
    var w := WithLimit(filters, config);
    forall k | k in Keys(CopiedParams(filters, config)) ensures k == "source" || k == "limit" || k in config.filters {
      CopiedGet(w, filters, config.filters, k);
    }
  }

  /** What `buildRequestParams(filters, config)` returns. */
  function RequestParams(filters: Record, config: SourceConfig): Record {
    SalesIdFlagged(CopiedParams(filters, config), SalesIdMode(filters) == Str("non-empty"))
  }

  /** The order-id mode step: in `non-empty` mode the order id is dropped and the
      flag set to `true`, otherwise the flag is set to `false`. */
  function SalesIdFlagged(copied: Record, nonEmpty: bool): Record {
    if nonEmpty then Set(Remove(copied, "salesId"), "salesIdNonEmpty", Str("true"))
    else Set(copied, "salesIdNonEmpty", Str("false"))
  }

  /** The parameters name the source; carry the limit only when it is not blank and
      a filter only when it is given; drop the order id and ask for non-empty ones
      in `non-empty` mode (the default); and hold no key the source does not know. */
  lemma RequestParamsShape(filters: Record, config: SourceConfig)
    requires WellFormed(config)
    ensures var p := RequestParams(filters, config);
            var nonEmpty := SalesIdMode(filters) == Str("non-empty");
            && Get(p, "source") == Str(config.id)
            && Get(p, "limit") == (if LimitGiven(Get(filters, "limit")) then Get(filters, "limit") else Undef)
            && (forall n :: n in config.filters && n != "salesId" ==>
                  Get(p, n) == if Given(Get(filters, n)) then Get(filters, n) else Undef)
            && Get(p, "salesId") == (if !nonEmpty && "salesId" in config.filters && Given(Get(filters, "salesId"))
                                     then Get(filters, "salesId") else Undef)
            && Get(p, "salesIdNonEmpty") == Str(if nonEmpty then "true" else "false")
            && (forall k :: k in Keys(p) ==> k == "source" || k == "limit" || k == "salesIdNonEmpty" || k in config.filters)
  {
    ReservedAbsent(config);
    CopiedFixed(filters, config);
    CopiedFilterValues(filters, config);
    CopiedKeys(filters, config);
    var c := CopiedParams(filters, config);
    if "salesId" !in config.filters {
      assert Get(c, "salesId") == Undef by {
        assert !("salesId" in Keys(c));
      }
    }
    SalesIdFlag(c, SalesIdMode(filters) == Str("non-empty"));
    SalesIdFlagKeys(c, SalesIdMode(filters) == Str("non-empty"));
  }

  /** The mode step sets the flag and drops the order id only in `non-empty` mode;
      every other key keeps its value. */
  lemma SalesIdFlag(c: Record, nonEmpty: bool)
    ensures var p := SalesIdFlagged(c, nonEmpty);
            && Get(p, "salesIdNonEmpty") == Str(if nonEmpty then "true" else "false")
            && Get(p, "salesId") == (if nonEmpty then Undef else Get(c, "salesId"))
            && (forall k :: k != "salesIdNonEmpty" && k != "salesId" ==> Get(p, k) == Get(c, k))
  {
  }

  /** The mode step adds no key but the flag. */
  lemma SalesIdFlagKeys(c: Record, nonEmpty: bool)
    ensures forall k :: k in Keys(SalesIdFlagged(c, nonEmpty)) ==> k == "salesIdNonEmpty" || k in Keys(c)
  {
  }

  /** The parameters name the source whatever the form holds. */
  lemma RequestParamsSource(filters: Record, config: SourceConfig)
    requires "source" !in config.filters && "limit" !in config.filters && "salesIdNonEmpty" !in config.filters
    ensures Get(RequestParams(filters, config), "source") == Str(config.id)
  {
    CopiedFixed(filters, config);
  }

  /** `buildRequestParams(filters, config)` */
  method BuildRequestParams(filters: Record, config: SourceConfig) returns (params: Record)
    ensures params == RequestParams(filters, config)
  {
    params := [Field("source", Str(config.id))];
    var limit := Get(filters, "limit");
    if LimitGiven(limit) {
      params := Set(params, "limit", limit);
    }
    assert params == WithLimit(filters, config);
    ghost var start := params;
    var i := 0;
    while i < |config.filters|
      invariant 0 <= i <= |config.filters|
      invariant params == Copied(start, filters, config.filters[..i])
    {
      CopiedStep(start, filters, config.filters, i);
      var value := Get(filters, config.filters[i]);
      if Given(value) {
        params := Set(params, config.filters[i], value);
      }
      i := i + 1;
    }
    PrefixWhole(config.filters);
    if SalesIdMode(filters) == Str("non-empty") {
      params := Remove(params, "salesId");
      params := Set(params, "salesIdNonEmpty", Str("true"));
    } else {
      params := Set(params, "salesIdNonEmpty", Str("false"));
    }
  }

  // ---------------------------------------------------------------- date range

  /** `validatePendingFilters()`, with `new Date(value)` as `parseDate` (`None`
      for an invalid date): false only for two given bounds that both parse and
      are in the wrong order. */
  function DateRangeValid(pending: Record, config: SourceConfig, parseDate: Value -> Option<real>): (ok: bool)
    ensures !ok <==> && Truthy(Get(pending, config.dateFrom)) && Truthy(Get(pending, config.dateTo))
                     && parseDate(Get(pending, config.dateFrom)).Some? && parseDate(Get(pending, config.dateTo)).Some?
                     && parseDate(Get(pending, config.dateFrom)).value > parseDate(Get(pending, config.dateTo)).value
  {
    var fromValue := Get(pending, config.dateFrom);
    var toValue := Get(pending, config.dateTo);
    if !Truthy(fromValue) || !Truthy(toValue) then true
    else
      var fromDate := parseDate(fromValue);
      var toDate := parseDate(toValue);
      !(fromDate.Some? && toDate.Some? && fromDate.value > toDate.value)
  }

  /** A fresh form always passes the date check: its bounds are blank. */
  lemma FreshFormValid(source: string, previousLimit: Value, parseDate: Value -> Option<real>)
    ensures DateRangeValid(InitialFilters(source, previousLimit), ConfigFor(source), parseDate)
  {
    var config := ConfigFor(source);
    SourcesWellFormed();
    ReservedAbsent(config);
    FormFilterValues(config, previousLimit);
    assert Get(InitialFilters(source, previousLimit), config.dateFrom) == Str("");
  }

  // ---------------------------------------------------------------- pending changes

  /** The source the form names, `vista` for an unknown one. */
  function CurrentConfig(pending: Record): SourceConfig {
    ConfigFor(ToStr(Get(pending, "source")))
  }

  /** `requestParams`: the form's parameters, plus `includeAllColumns` when the
      all-columns switch is on. */
  function PageParams(pending: Record, showAllColumns: bool): Record {
    var params := RequestParams(pending, CurrentConfig(pending));
    if showAllColumns then Set(params, "includeAllColumns", Str("true")) else params
  }

  /** `hasPendingChanges`, with the comparison of the two serialised objects taken
      as equality of their ordered fields (no search yet counts as `{}`). */
  predicate HasPendingChanges(params: Record, applied: Option<Record>) {
    params != (if applied.Some? then applied.value else [])
  }

  /** The parameters always name a source, so before any search there is always
      something to apply. */
  lemma PendingBeforeFirstSearch(pending: Record, showAllColumns: bool)
    ensures HasPendingChanges(PageParams(pending, showAllColumns), None)
    ensures Get(PageParams(pending, showAllColumns), "source") == Str(CurrentConfig(pending).id)
  {
    var config := CurrentConfig(pending);
    SourcesWellFormed();
    ReservedAbsent(config);
    RequestParamsSource(pending, config);
  }

  // ---------------------------------------------------------------- rendering

  const MAX_RENDERED_ROWS := 750

  /** `rows.slice(0, MAX_RENDERED_ROWS)` */
  function RenderedRows<T>(rows: seq<T>): (r: seq<T>)
    ensures |r| == if |rows| > MAX_RENDERED_ROWS then MAX_RENDERED_ROWS else |rows|
    ensures r == rows[..|r|]
  {
    if |rows| > MAX_RENDERED_ROWS then rows[..MAX_RENDERED_ROWS] else rows
  }
}
