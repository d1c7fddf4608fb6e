/** The line-download page's state: the form being edited, the filters of the
    last search and the all-columns switch. */
module LineDownloadPage {
  import opened Wrappers
  import opened JsValue
  import opened LineDownload

  class LinePage {
    var pendingFilters: Record
    var appliedFilters: Option<Record>
    var showAllColumns: bool

    /** The page opens with a fresh form for `source` (the page passes `vista`)
        and no previous limit. */
    constructor(source: string)
      ensures pendingFilters == InitialFilters(source, Undef)
      ensures appliedFilters.None? && !showAllColumns
    {
      var form := BuildInitialFilters(source, Undef);
      pendingFilters := form;
      appliedFilters := None;
      showAllColumns := false;
    }

    /** `handleSourceChange(nextSource)`: a fresh form for the new source, keeping
        the limit; the applied filters and the all-columns switch are reset. */
    method SourceChange(nextSource: string)
      modifies this
      ensures pendingFilters == InitialFilters(nextSource, Get(old(pendingFilters), "limit"))
      ensures appliedFilters.None? && !showAllColumns
    {
      var form := BuildInitialFilters(nextSource, Get(pendingFilters, "limit"));
      pendingFilters := form;
      appliedFilters := None;
      showAllColumns := false;
    }

    /** `handleFilterChange(name)(event)`: one input of the form takes the new
        value, `''` when the event carries none. */
    method FilterChange(name: string, value: Value)
      modifies this
      ensures Get(pendingFilters, name) == Coalesce(value, Str(""))
      ensures forall k :: k != name ==> Get(pendingFilters, k) == Get(old(pendingFilters), k)
      ensures appliedFilters == old(appliedFilters) && showAllColumns == old(showAllColumns)
    {
      pendingFilters := Set(pendingFilters, name, Coalesce(value, Str("")));
    }

    /** `handleSalesIdModeChange(event)`: the new mode (`non-empty` when none is
        given); any mode but `manual` also clears the order id. */
    method SalesIdModeChange(value: Value)
      modifies this
      ensures var mode := Coalesce(value, Str("non-empty"));
              && Get(pendingFilters, "salesIdMode") == mode
              && Get(pendingFilters, "salesId") == (if mode == Str("manual") then Get(old(pendingFilters), "salesId") else Str(""))
              && (forall k :: k != "salesIdMode" && k != "salesId" ==> Get(pendingFilters, k) == Get(old(pendingFilters), k))
      ensures appliedFilters == old(appliedFilters) && showAllColumns == old(showAllColumns)
    {
      var mode := Coalesce(value, Str("non-empty"));
      var next := Set(pendingFilters, "salesIdMode", mode);
      if mode != Str("manual") {
        next := Set(next, "salesId", Str(""));
      }
      pendingFilters := next;
    }

    /** `handleSearch`: with a valid date range, the form's parameters become the
        applied filters, unless a search was made and nothing changed since. */
    method Search(parseDate: Value -> Option<real>) returns (searched: bool)
      modifies this
      ensures searched <==> && DateRangeValid(old(pendingFilters), CurrentConfig(old(pendingFilters)), parseDate)
                            && (HasPendingChanges(PageParams(old(pendingFilters), old(showAllColumns)), old(appliedFilters))
                                || old(appliedFilters).None?)
      ensures appliedFilters == if searched then Some(PageParams(old(pendingFilters), old(showAllColumns))) else old(appliedFilters)
      ensures appliedFilters.Some? ==> appliedFilters == old(appliedFilters) || !HasPendingChanges(PageParams(pendingFilters, showAllColumns), appliedFilters)
      ensures pendingFilters == old(pendingFilters) && showAllColumns == old(showAllColumns)
    {
      var config := CurrentConfig(pendingFilters);
      if !DateRangeValid(pendingFilters, config, parseDate) {
        return false;
      }
      var params := BuildRequestParams(pendingFilters, config);
      if showAllColumns {
        params := Set(params, "includeAllColumns", Str("true"));
      }
      if !HasPendingChanges(params, appliedFilters) && appliedFilters.Some? {
        return false;
      }
      appliedFilters := Some(params);
      searched := true;
    }

    /** The all-columns switch. */
    method SetShowAllColumns(checked: bool)
      modifies this
      ensures showAllColumns == checked
      ensures pendingFilters == old(pendingFilters) && appliedFilters == old(appliedFilters)
    {
      showAllColumns := checked;
    }

    /** `handleResetFilters`: a fresh form for the same source and limit. */
    method ResetFilters()
      modifies this
      ensures pendingFilters == InitialFilters(ToStr(Get(old(pendingFilters), "source")), Get(old(pendingFilters), "limit"))
      ensures appliedFilters == old(appliedFilters) && showAllColumns == old(showAllColumns)
    {
      var form := BuildInitialFilters(ToStr(Get(pendingFilters, "source")), Get(pendingFilters, "limit"));
      pendingFilters := form;
    }
  }

  /** After a source change the form is for that source and passes the date check. */
  method ChangeSourceThenValidate(page: LinePage, nextSource: string, parseDate: Value -> Option<real>) returns (ok: bool)
    modifies page
    ensures ok
    ensures Get(page.pendingFilters, "source") == Str(ConfigFor(nextSource).id) && page.appliedFilters.None?
  {
    page.SourceChange(nextSource);
    InitialFiltersShape(nextSource, Get(old(page.pendingFilters), "limit"));
    FreshFormValid(nextSource, Get(old(page.pendingFilters), "limit"), parseDate);
    ok := DateRangeValid(page.pendingFilters, ConfigFor(nextSource), parseDate);
  }
}
