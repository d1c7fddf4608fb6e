/** The Snowflake comparison page: its date-range form and the summary of the
    orders whose amounts differ between the base table and the view. */
module SnowflakeView {
  import opened Wrappers
  import opened JsValue

  const DEFAULT_DATE_FROM := "2020-01-01"

  // ---------------------------------------------------------------- date strings

  predicate IsDigit(c: char) { '0' <= c <= '9' }

  /** `/^\d{4}-\d{2}-\d{2}$/.test(s)` */
  predicate IsIsoDate(s: string) {
    && |s| == 10
    && IsDigit(s[0]) && IsDigit(s[1]) && IsDigit(s[2]) && IsDigit(s[3])
    && s[4] == '-'
    && IsDigit(s[5]) && IsDigit(s[6])
    && s[7] == '-'
    && IsDigit(s[8]) && IsDigit(s[9])
  }

  /** `a < b` on two strings: code-unit order, a proper prefix first. */
  predicate LexLess(a: string, b: string) {
    if a == [] then b != []
    else if b == [] then false
    else a[0] < b[0] || (a[0] == b[0] && LexLess(a[1..], b[1..]))
  }

  function DigitOf(c: char): (d: nat)
    ensures d <= 9
  {
    if IsDigit(c) then (c as int - '0' as int) as nat else 0
  }

  lemma DigitBound(d: nat, p: nat, rest: nat)
    requires d <= 9 && rest < p
    ensures d * p + rest < 10 * p
  {
    assert d * p <= 9 * p;
  }

  /** The number the digits of `s` spell, a separator counting as a zero digit:
      `2024-03-15` reads as 2024 * 10^6 + 3 * 10^3 + 15. */
  function DigitValue(s: string): (v: nat)
    ensures v < Pow10(|s|)
  {
    if s == [] then 0
    else
      var rest := DigitValue(s[1..]);
      DigitBound(DigitOf(s[0]), Pow10(|s| - 1), rest);
      DigitOf(s[0]) * Pow10(|s| - 1) + rest
  }

  /** Two strings made of digits and separators, with the separators at the same places. */
  predicate SameShape(a: string, b: string) {
    && |a| == |b|
    && (forall i :: 0 <= i < |a| ==> IsDigit(a[i]) || a[i] == '-')
    && (forall i :: 0 <= i < |b| ==> IsDigit(b[i]) || b[i] == '-')
    && (forall i :: 0 <= i < |a| ==> (a[i] == '-' <==> b[i] == '-'))
  }

  lemma HeadDominates(x: nat, y: nat, rx: nat, ry: nat, p: nat)
    requires x < y && rx < p && ry < p
    ensures x * p + rx < y * p + ry
  {
    assert (x + 1) * p <= y * p by {
      assert x + 1 <= y;
    }
  }

  lemma SameShapeTail(a: string, b: string)
    requires SameShape(a, b) && a != []
    ensures SameShape(a[1..], b[1..])
  {
    assert forall i :: 0 <= i < |a| - 1 ==> a[1..][i] == a[i + 1] && b[1..][i] == b[i + 1];
  }

  /** On strings of the same shape, string order is the order of their digit values. */
  lemma {:induction false} LexLessIsValueLess(a: string, b: string)
    requires SameShape(a, b)
    ensures LexLess(a, b) <==> DigitValue(a) < DigitValue(b)
    decreases |a|
  {
    if a != [] {
      SameShapeTail(a, b);
      LexLessIsValueLess(a[1..], b[1..]);
      var p := Pow10(|a| - 1);
      var ra, rb := DigitValue(a[1..]), DigitValue(b[1..]);
      assert a[0] == '-' <==> b[0] == '-' by {
        assert 0 < |a|;
      }
      assert IsDigit(a[0]) || a[0] == '-';
      assert IsDigit(b[0]) || b[0] == '-';
      if a[0] < b[0] {
        HeadDominates(DigitOf(a[0]), DigitOf(b[0]), ra, rb, p);
      } else if b[0] < a[0] {
        HeadDominates(DigitOf(b[0]), DigitOf(a[0]), rb, ra, p);
      }
    }
  }

  /** Two dates that pass the format check compare as strings the way their
      year, month and day compare, so `from > to` is a check on the dates. */
  lemma IsoDatesCompareByValue(a: string, b: string)
    requires IsIsoDate(a) && IsIsoDate(b)
    ensures LexLess(b, a) <==> DigitValue(b) < DigitValue(a)
  {
    assert SameShape(b, a);
    LexLessIsValueLess(b, a);
  }

  // ---------------------------------------------------------------- date range form

  datatype DateRange = DateRange(from: string, to: string)

  datatype Bound = FromBound | ToBound

  datatype ApplyOutcome = BadFormat | BadOrder | Applied

  /** Which branch `applyDateFilters` takes for the range in the form. */
  function ApplyOutcomeOf(pending: DateRange): (o: ApplyOutcome)
    ensures o == Applied <==> IsIsoDate(pending.from) && IsIsoDate(pending.to) && !LexLess(pending.to, pending.from)
    ensures o == BadFormat <==> !IsIsoDate(pending.from) || !IsIsoDate(pending.to)
  {
    if !IsIsoDate(pending.from) || !IsIsoDate(pending.to) then BadFormat
    else if LexLess(pending.to, pending.from) then BadOrder
    else Applied
  }

  /** A range the form accepts is a range of dates in order. */
  lemma AppliedRangeIsOrdered(pending: DateRange)
    requires ApplyOutcomeOf(pending) == Applied
    ensures DigitValue(pending.from) <= DigitValue(pending.to)
  {
    IsoDatesCompareByValue(pending.from, pending.to);
  }

  class DateFilters {
    /** `pendingDateFilters`: what the inputs show. */
    var pending: DateRange
    /** `dateFilters`: the range both queries run with. */
    var applied: DateRange

    /** Both ranges start from 2020-01-01 to `yesterday`, which the page takes
        from the clock. */
    constructor(yesterday: string)
      ensures pending == DateRange(DEFAULT_DATE_FROM, yesterday)
      ensures applied == DateRange(DEFAULT_DATE_FROM, yesterday)
    {
      pending := DateRange(DEFAULT_DATE_FROM, yesterday);
      applied := DateRange(DEFAULT_DATE_FROM, yesterday);
    }

    /** `isApplyDisabled` */
    function ApplyDisabled(): (disabled: bool)
      reads this
      ensures disabled <==> applied == pending
    {
      applied.from == pending.from && applied.to == pending.to
    }

    /** `handleDateInputChange(field)(event)` */
    method DateInputChange(bound: Bound, value: string)
      modifies this
      ensures pending == if bound == FromBound then old(pending).(from := value) else old(pending).(to := value)
      ensures applied == old(applied)
    {
      if bound == FromBound {
        pending := pending.(from := value);
      } else {
        pending := pending.(to := value);
      }
    }

    /** `applyDateFilters`: a badly written or reversed range changes nothing;
        an accepted one becomes both the form's and the queries' range. */
    method Apply() returns (outcome: ApplyOutcome)
      modifies this
      ensures outcome == ApplyOutcomeOf(old(pending))
      ensures outcome != Applied ==> pending == old(pending) && applied == old(applied)
      ensures outcome == Applied ==> pending == old(pending) && applied == old(pending)
      ensures outcome == Applied ==> ApplyDisabled()
    {
      var from, to := pending.from, pending.to;
      if !IsIsoDate(from) || !IsIsoDate(to) {
        return BadFormat;
      }
      if LexLess(to, from) {
        return BadOrder;
      }
      var nextRange := DateRange(from, to);
      pending := nextRange;
      applied := nextRange;
      outcome := Applied;
    }

    /** `handleResetDateFilters` */
    method Reset(yesterday: string)
      modifies this
      ensures pending == DateRange(DEFAULT_DATE_FROM, yesterday) && applied == pending
      ensures ApplyDisabled()
    {
      pending := DateRange(DEFAULT_DATE_FROM, yesterday);
      applied := DateRange(DEFAULT_DATE_FROM, yesterday);
    }
  }

  // ---------------------------------------------------------------- mismatch summary

  const ONLY_IN_BASE := "ONLY_IN_" + "BASE"
  const ONLY_IN_VIEW := "ONLY_IN_" + "VIEW"

  /** `row.MATCH_STATUS === status` */
  predicate HasStatus(row: Record, status: string) {
    Get(row, "MATCH_STATUS") == Str(status)
  }

  /** `rows.filter((row) => row.MATCH_STATUS === status).length` */
  function CountStatus(rows: seq<Record>, status: string): (n: nat)
    ensures n <= |rows|
  {
    if rows == [] then 0
    else (if HasStatus(rows[0], status) then 1 else 0) + CountStatus(rows[1..], status)
  }

  /** The rows in neither one-sided status: found on both sides with different amounts. */
  function CountBoth(rows: seq<Record>): nat {
    if rows == [] then 0
    else (if !HasStatus(rows[0], ONLY_IN_BASE) && !HasStatus(rows[0], ONLY_IN_VIEW) then 1 else 0) + CountBoth(rows[1..])
  }

  /** `Math.abs(row.DIFF_AMT || 0)`; `None` stands for NaN. */
  function AbsDiff(row: Record): (d: Option<real>)
    ensures d.Some? ==> d.value >= 0.0
  {
    var v := Or(Get(row, "DIFF_AMT"), Num(0.0));
    match ToNumber(v)
    case None => None
    case Some(x) => Some(if x < 0.0 then -x else x)
  }

  /** `+` on numbers that may be NaN. */
  function AddNumbers(a: Option<real>, b: Option<real>): Option<real> {
    if a.Some? && b.Some? then Some(a.value + b.value) else None
  }

  /** `xs.reduce((acc, x) => acc + f(x), 0)` */
  function SumBy<T>(xs: seq<T>, f: T -> Option<real>): Option<real> {
    if xs == [] then Some(0.0)
    else AddNumbers(SumBy(xs[..|xs| - 1], f), f(xs[|xs| - 1]))
  }

  /** `Math.abs(row.DIFF_AMT || 0)` summed over the rows. */
  function AbsoluteDiff(rows: seq<Record>): Option<real> {
    SumBy(rows, AbsDiff)
  }

  /** `x > y` on numbers that may be NaN: false when either is. */
  predicate Greater(x: Option<real>, y: Option<real>) {
    x.Some? && y.Some? && x.value > y.value
  }

  /** `xs.reduce((worst, x) => !worst ? x : f(x) > f(worst) ? x : worst, null)`
      over a non-empty list. */
  function WorstBy<T>(xs: seq<T>, f: T -> Option<real>): (w: T)
    requires xs != []
    ensures w in xs
  {
    if |xs| == 1 then xs[0]
    else
      var worst := WorstBy(xs[..|xs| - 1], f);
      var x := xs[|xs| - 1];
      if Greater(f(x), f(worst)) then x else worst
  }

  /** The row with the largest `Math.abs(row.DIFF_AMT || 0)`. */
  function WorstRow(rows: seq<Record>): Record
    requires rows != []
  {
    WorstBy(rows, AbsDiff)
  }

  datatype MismatchSummary = MismatchSummary(
    absoluteDiff: Option<real>,
    baseOnly: nat,
    viewOnly: nat,
    dualMismatches: int,
    worstRow: Record)

  /** `mismatchSummary`: nothing for no rows. */
  function MismatchSummaryOf(rows: seq<Record>): (s: Option<MismatchSummary>)
    ensures s.None? <==> rows == []
  {
    if rows == [] then None
    else
      var baseOnly := CountStatus(rows, ONLY_IN_BASE);
      var viewOnly := CountStatus(rows, ONLY_IN_VIEW);
      Some(MismatchSummary(AbsoluteDiff(rows), baseOnly, viewOnly, |rows| - baseOnly - viewOnly, WorstRow(rows)))
  }

  /** The three counts split the rows: the one-sided statuses exclude each other,
      so the rows left over are exactly those found on both sides. */
  lemma {:induction false} CountsPartitionRows(rows: seq<Record>)
    ensures CountStatus(rows, ONLY_IN_BASE) + CountStatus(rows, ONLY_IN_VIEW) + CountBoth(rows) == |rows|
  {
    if rows != [] {
      CountsPartitionRows(rows[1..]);
      assert ONLY_IN_BASE != ONLY_IN_VIEW by {
        assert ONLY_IN_BASE[8] != ONLY_IN_VIEW[8];
      }
    }
  }

  lemma SummaryCounts(rows: seq<Record>)
    requires rows != []
    ensures var s := MismatchSummaryOf(rows).value;
            && s.baseOnly + s.viewOnly + s.dualMismatches == |rows|
            && s.dualMismatches == CountBoth(rows)
            && s.dualMismatches >= 0
  {
    CountsPartitionRows(rows);
  }

  /** With every value a number, the reduction picks a largest one, and no
      element before it is as large (ties keep the earliest). */
  lemma {:induction false} WorstByIsFirstLargest<T>(xs: seq<T>, f: T -> Option<real>) returns (k: nat)
    requires xs != []
    requires forall i :: 0 <= i < |xs| ==> f(xs[i]).Some?
    ensures k < |xs| && xs[k] == WorstBy(xs, f)
    ensures forall i :: 0 <= i < |xs| ==> f(xs[i]).value <= f(xs[k]).value
    ensures forall i :: 0 <= i < k ==> f(xs[i]).value < f(xs[k]).value
  {
    if |xs| == 1 {
      k := 0;
    } else {
      var init := xs[..|xs| - 1];
      var x := xs[|xs| - 1];
      assert forall i :: 0 <= i < |init| ==> init[i] == xs[i];
      k := WorstByIsFirstLargest(init, f);
      if f(x).value > f(init[k]).value {
        k := |xs| - 1;
      }
    }
  }

  /** The sum is a number exactly when every term is one, and it is not negative
      when no term is. */
  lemma {:induction false} SumByDefined<T>(xs: seq<T>, f: T -> Option<real>)
    requires forall x :: f(x).Some? ==> f(x).value >= 0.0
    ensures SumBy(xs, f).Some? <==> forall i :: 0 <= i < |xs| ==> f(xs[i]).Some?
    ensures SumBy(xs, f).Some? ==> SumBy(xs, f).value >= 0.0
  {
    if xs != [] {
      var init := xs[..|xs| - 1];
      SumByDefined(init, f);
      assert forall i :: 0 <= i < |init| ==> init[i] == xs[i];
    }
  }

  /** With every difference a number, the worst row has the largest one and is
      the first such row; the absolute total is a number exactly when every
      difference is, and is not negative. */
  lemma SummaryWorstAndTotal(rows: seq<Record>)
    requires rows != []
    ensures var s := MismatchSummaryOf(rows).value;
            && (s.absoluteDiff.Some? <==> forall i :: 0 <= i < |rows| ==> AbsDiff(rows[i]).Some?)
            && (s.absoluteDiff.Some? ==> s.absoluteDiff.value >= 0.0)
            && (s.absoluteDiff.Some? ==>
                  exists k :: 0 <= k < |rows| && rows[k] == s.worstRow
                              && (forall i :: 0 <= i < |rows| ==> AbsDiff(rows[i]).value <= AbsDiff(rows[k]).value)
                              && (forall i :: 0 <= i < k ==> AbsDiff(rows[i]).value < AbsDiff(rows[k]).value))
  {
    SumByDefined(rows, AbsDiff);
    if AbsoluteDiff(rows).Some? {
      var k := WorstByIsFirstLargest(rows, AbsDiff);
    }
  }
}
