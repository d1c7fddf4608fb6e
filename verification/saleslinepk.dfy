/**
 * The composite key `SALESLINEPK` of a processed sales line: the values of 17
 * fixed columns, looked up by normalised column name, rendered as strings and
 * joined with `-`.
 */
module SalesLinePk {
  import opened JsString
  import opened JsValue

  /** The rendering of one key segment: empty for null or undefined, the ISO
      instant for a date, `String(value)` for everything else. */
  function EnsureString(value: Value): (s: string)
    ensures Nullish(value) ==> s == ""
    ensures value.Date? ==> s == value.iso
    ensures !Nullish(value) && !value.Date? ==> s == ToStr(value)
  {
    match value
    case Undef => ""
    case Null => ""
    case Date(_, iso, _) => iso
    case _ => ToStr(value)
  }

  /** The characters of `s` that are ASCII letters or digits, in order. */
  function KeepAlnum(s: string): (r: string)
    ensures forall i :: 0 <= i < |r| ==> IsAsciiAlnum(r[i]) && r[i] in s
  {
    if s == [] then []
    else (if IsAsciiAlnum(s[0]) then [s[0]] else []) + KeepAlnum(s[1..])
  }

  /** Column-name normalisation: drop everything but ASCII letters and digits, then upper-case. */
  function NormalizeKey(key: string): (r: string)
    ensures forall i :: 0 <= i < |r| ==> IsDigit(r[i]) || IsAsciiUpper(r[i])
  {
    var kept := KeepAlnum(key);
    AlnumToUpper(kept);
    ToUpper(kept)
  }

  lemma {:induction false} AlnumToUpper(s: string)
    requires forall i :: 0 <= i < |s| ==> IsAsciiAlnum(s[i])
    ensures |ToUpper(s)| == |s|
    ensures forall i :: 0 <= i < |s| ==> ToUpper(s)[i] == AsciiFold(s[i])
    ensures forall i :: 0 <= i < |s| ==> IsDigit(ToUpper(s)[i]) || IsAsciiUpper(ToUpper(s)[i])
  {
    if s != [] {
      AlnumToUpper(s[1..]);
    }
  }

  lemma {:induction false} KeepAlnumAppend(a: string, b: string)
    ensures KeepAlnum(a + b) == KeepAlnum(a) + KeepAlnum(b)
  {
    if a == [] {
      assert a + b == b;
    } else {
      assert (a + b)[1..] == a[1..] + b;
      KeepAlnumAppend(a[1..], b);
    }
  }

  /** Normalisation works character by character ... */
  lemma NormalizeKeyAppend(a: string, b: string)
    ensures NormalizeKey(a + b) == NormalizeKey(a) + NormalizeKey(b)
  {
    KeepAlnumAppend(a, b);
    ToUpperAppend(KeepAlnum(a), KeepAlnum(b));
  }

  /** ... deleting every character outside A-Z, a-z, 0-9 and upper-casing the rest. */
  lemma NormalizeKeyChar(c: char)
    ensures NormalizeKey([c]) == if IsAsciiAlnum(c) then [AsciiFold(c)] else []
  {
    assert [c][1..] == [];
    assert KeepAlnum([c]) == (if IsAsciiAlnum(c) then [c] else []) + KeepAlnum([]);
    if IsAsciiAlnum(c) {
      assert ToUpper([c]) == UpperChar(c) + ToUpper([]);
    }
  }

  /** Normalising a normalised name changes nothing. */
  lemma NormalizeKeyIdempotent(key: string)
    ensures NormalizeKey(NormalizeKey(key)) == NormalizeKey(key)
  {
    var n := NormalizeKey(key);
    KeepUpperAlnum(n);
    AlnumToUpper(n);
  }

  lemma {:induction false} KeepUpperAlnum(s: string)
    requires forall i :: 0 <= i < |s| ==> IsDigit(s[i]) || IsAsciiUpper(s[i])
    ensures KeepAlnum(s) == s
  {
    if s != [] {
      KeepUpperAlnum(s[1..]);
    }
  }

  /** The lookup table `indexSource` builds: normalised key to value, filled in
      entry order so that a later entry overwrites an earlier one. */
  function IndexSource(source: Record): (index: map<string, Value>)
    ensures forall i :: 0 <= i < |source| ==> NormalizeKey(source[i].key) in index
  {
    if source == [] then map[]
    else
      var last := source[|source| - 1];
      var prefix := source[..|source| - 1];
      assert forall i :: 0 <= i < |prefix| ==> prefix[i] == source[i];
      IndexSource(prefix)[NormalizeKey(last.key) := last.val]
  }

  /** Only normalised keys of the record are in the table. */
  lemma {:induction false} IndexSourceDomain(source: Record, n: string)
    requires forall i :: 0 <= i < |source| ==> NormalizeKey(source[i].key) != n
    ensures n !in IndexSource(source)
  {
    if source != [] {
      IndexSourceDomain(source[..|source| - 1], n);
    }
  }

  /** An entry that no later entry shadows supplies the value of its normalised key. */
  lemma {:induction false} IndexSourceLastWins(source: Record, i: nat)
    requires i < |source|
    requires forall j :: i < j < |source| ==> NormalizeKey(source[j].key) != NormalizeKey(source[i].key)
    ensures IndexSource(source)[NormalizeKey(source[i].key)] == source[i].val
  {
    if i < |source| - 1 {
      var prefix := source[..|source| - 1];
      IndexSourceLastWins(prefix, i);
    }
  }

  /** The value the index holds for a column, `undefined` when it holds none. */
  function Lookup(index: map<string, Value>, column: string): Value {
    if NormalizeKey(column) in index then index[NormalizeKey(column)] else Undef
  }

  const SALES_LINE_PK_SEQUENCE: seq<string> := [
    "QTY",
    "INVENTTRANSID",
    "INVENTDIMID",
    "REFCUSTINVOICETRANSRECID",
    "INVOICECODE",
    "INVOICEID",
    "SALESID",
    "DEV_INVOICEID",
    "DEV_SALESID",
    "ITEMID",
    "CONFIGID",
    "INVENTCOLORID",
    "INVENTSIZEID",
    "INVENTSTYLEID",
    "INVENTSTATUSID",
    "INVENTLOCATIONID",
    "LINECREATIONSEQUENCENUMBER"
  ]

  /** The segment contributed by one column of the sequence. */
  function Segment(source: Record, column: string): string {
    EnsureString(Coalesce(Lookup(IndexSource(source), column), Str("")))
  }

  /** The 17 segments, in the order of `SALES_LINE_PK_SEQUENCE`. */
  function Segments(source: Record): (parts: seq<string>)
    ensures |parts| == |SALES_LINE_PK_SEQUENCE| == 17
    ensures forall i :: 0 <= i < 17 ==> parts[i] == Segment(source, SALES_LINE_PK_SEQUENCE[i])
  {
    seq(|SALES_LINE_PK_SEQUENCE|, i requires 0 <= i < |SALES_LINE_PK_SEQUENCE| => Segment(source, SALES_LINE_PK_SEQUENCE[i]))
  }

  /** `buildSalesLinePk`: there are always at least 16 hyphens, and when no segment
      holds a hyphen, splitting on `-` gives the 17 segments back. */
  function BuildSalesLinePk(source: Record): (pk: string)
    ensures Count(pk, '-') >= 16
    ensures (forall i :: 0 <= i < 17 ==> '-' !in Segments(source)[i]) ==>
      Split(pk, '-') == Segments(source) && Count(pk, '-') == 16
  {
    var parts := Segments(source);
    HyphenJoin(parts);
    Join(parts, "-")
  }

  lemma HyphenJoin(parts: seq<string>)
    requires |parts| >= 1
    ensures Count(Join(parts, "-"), '-') >= |parts| - 1
    ensures (forall i :: 0 <= i < |parts| ==> '-' !in parts[i]) ==>
      Split(Join(parts, "-"), '-') == parts && Count(Join(parts, "-"), '-') == |parts| - 1
  {
    JoinSeparatorCountAtLeast(parts, '-');
    if forall i :: 0 <= i < |parts| ==> '-' !in parts[i] {
      SplitJoin(parts, '-');
      JoinSeparatorCount(parts, '-');
    }
  }

  /** A column that is absent, null or undefined gives an empty segment, not a missing one. */
  lemma AbsentColumnEmptySegment(source: Record, column: string)
    requires Nullish(Lookup(IndexSource(source), column))
    ensures Segment(source, column) == ""
  {
  }

  lemma EmptySourceSegment(column: string)
    ensures Segment([], column) == ""
  {
    assert Lookup(IndexSource([]), column) == Undef;
  }

  /** An empty record gives sixteen hyphens and nothing else. */
  lemma EmptySourcePk()
    ensures BuildSalesLinePk([]) == "----------------"
  {
    var parts := Segments([]);
    forall i | 0 <= i < 17 ensures parts[i] == "" {
      EmptySourceSegment(SALES_LINE_PK_SEQUENCE[i]);
    }
    JoinEmpty(parts);
    assert seq(16, _ => '-') == "----------------";
  }

  lemma {:induction false} JoinEmpty(parts: seq<string>)
    requires |parts| >= 1 && forall i :: 0 <= i < |parts| ==> parts[i] == ""
    ensures Join(parts, "-") == seq(|parts| - 1, _ => '-')
  {
    if |parts| > 1 {
      JoinEmpty(parts[1..]);
      assert parts[0] == "";
    }
  }

  /** Two records whose keys normalise alike, entry by entry, and whose values agree
      have the same lookup table. */
  lemma {:induction false} IndexSourceNormalized(a: Record, b: Record)
    requires |a| == |b|
    requires forall i :: 0 <= i < |a| ==> NormalizeKey(a[i].key) == NormalizeKey(b[i].key) && a[i].val == b[i].val
    ensures IndexSource(a) == IndexSource(b)
  {
    if a != [] {
      IndexSourceNormalized(a[..|a| - 1], b[..|b| - 1]);
    }
  }

  /** Keys are matched by normalised name: renaming keys in case or punctuation
      does not change the key. */
  lemma KeyCasingIrrelevant(a: Record, b: Record)
    requires |a| == |b|
    requires forall i :: 0 <= i < |a| ==> NormalizeKey(a[i].key) == NormalizeKey(b[i].key) && a[i].val == b[i].val
    ensures BuildSalesLinePk(a) == BuildSalesLinePk(b)
  {
    IndexSourceNormalized(a, b);
    assert Segments(a) == Segments(b);
  }

  /** Of two entries whose keys normalise to the same column, the later one supplies the segment. */
  lemma LaterEntryWins(source: Record, key: string, value: Value, i: nat)
    requires i < 17 && NormalizeKey(key) == NormalizeKey(SALES_LINE_PK_SEQUENCE[i])
    ensures Segments(source + [Field(key, value)])[i] == EnsureString(Coalesce(value, Str("")))
  {
    var s := source + [Field(key, value)];
    assert s[..|s| - 1] == source;
  }

  /** The normalised names of the key columns. */
  function NormalizedSequence(): (ns: set<string>)
    ensures forall i :: 0 <= i < 17 ==> NormalizeKey(SALES_LINE_PK_SEQUENCE[i]) in ns
  {
    set i | 0 <= i < 17 :: NormalizeKey(SALES_LINE_PK_SEQUENCE[i])
  }

  /** Entries whose key is none of the 17 columns never affect the key. */
  lemma UnrelatedEntryIrrelevant(source: Record, key: string, value: Value)
    requires NormalizeKey(key) !in NormalizedSequence()
    ensures BuildSalesLinePk(source + [Field(key, value)]) == BuildSalesLinePk(source)
  {
    var s := source + [Field(key, value)];
    assert s[..|s| - 1] == source;
    assert Segments(s) == Segments(source);
  }

  /** Looking a column up after the last entry: that entry if its key matches, the
      earlier entries otherwise. */
  lemma LookupLast(a: Record, column: string)
    requires a != []
    ensures Lookup(IndexSource(a), column) ==
      if NormalizeKey(column) == NormalizeKey(a[|a| - 1].key) then a[|a| - 1].val
      else Lookup(IndexSource(a[..|a| - 1]), column)
  {
  }

  /** The lookup table of a record in which one entry has been replaced by an entry
      whose key is none of the 17 columns agrees on every column of the key. */
  lemma {:induction false} IndexSourceReplaceUnrelated(a: Record, b: Record, j: nat, column: string)
    requires |a| == |b| && j < |a|
    requires forall i :: 0 <= i < |a| && i != j ==> a[i] == b[i]
    requires NormalizeKey(column) != NormalizeKey(a[j].key) && NormalizeKey(column) != NormalizeKey(b[j].key)
    ensures Lookup(IndexSource(a), column) == Lookup(IndexSource(b), column)
  {
    var pa, pb := a[..|a| - 1], b[..|b| - 1];
    LookupLast(a, column);
    LookupLast(b, column);
    if j < |a| - 1 {
      assert a[|a| - 1] == b[|b| - 1];
      IndexSourceReplaceUnrelated(pa, pb, j, column);
    } else {
      assert pa == pb;
    }
  }

  /** Overwriting an existing entry whose key is none of the 17 columns leaves the key unchanged. */
  lemma ReplaceUnrelatedIrrelevant(source: Record, key: string, value: Value)
    requires key in Keys(source) && NormalizeKey(key) !in NormalizedSequence()
    ensures Segments(Set(source, key, value)) == Segments(source)
  {
    var s := Set(source, key, value);
    var j := SetPosition(source, key, value);
    forall i | 0 <= i < 17 ensures Segments(s)[i] == Segments(source)[i] {
      IndexSourceReplaceUnrelated(source, s, j, SALES_LINE_PK_SEQUENCE[i]);
    }
  }

  /** Assigning a property that is none of the 17 columns (such as `SALESLINEPK`
      itself) leaves the key unchanged. */
  lemma SetUnrelatedIrrelevant(source: Record, key: string, value: Value)
    requires NormalizeKey(key) !in NormalizedSequence()
    ensures BuildSalesLinePk(Set(source, key, value)) == BuildSalesLinePk(source)
  {
    if key in Keys(source) {
      ReplaceUnrelatedIrrelevant(source, key, value);
    } else {
      SetAppends(source, key, value);
      UnrelatedEntryIrrelevant(source, key, value);
    }
  }

  /** A name made of upper-case letters and digits is its own normal form. */
  lemma NormalizeUpperName(s: string)
    requires forall i :: 0 <= i < |s| ==> IsDigit(s[i]) || IsAsciiUpper(s[i])
    ensures NormalizeKey(s) == s
  {
    KeepUpperAlnum(s);
    AlnumToUpper(s);
  }

  /** Every character of a normal form is the upper-case form of a character of the name. */
  lemma NormalizeKeyOrigin(s: string, c: char)
    requires c in NormalizeKey(s)
    ensures exists d :: d in s && AsciiFold(d) == c
  {
    var kept := KeepAlnum(s);
    AlnumToUpper(kept);
    var i :| 0 <= i < |NormalizeKey(s)| && NormalizeKey(s)[i] == c;
    assert kept[i] in s;
  }

  /** No column of the key sequence has a `K` in its name. */
  lemma SequenceHasNoK()
    ensures forall i :: 0 <= i < 17 ==> 'K' !in SALES_LINE_PK_SEQUENCE[i] && 'k' !in SALES_LINE_PK_SEQUENCE[i]
  {
    NoKIn1();
    NoKIn2();
    NoKIn3();
    NoKIn4();
    NoKIn5();
    NoKIn6();
    NoKIn7();
    NoKIn8();
  }

  /** The segment names, a few at a time, hold no `K` in either case. */
  lemma NoKIn1()
    ensures 'K' !in "QTY" && 'k' !in "QTY"
    ensures 'K' !in "INVENTTRANSID" && 'k' !in "INVENTTRANSID"
    ensures 'K' !in "INVENTDIMID" && 'k' !in "INVENTDIMID"
  {
  }

  lemma NoKIn2()
    ensures 'K' !in "REFCUSTINVOICETRANSRECID" && 'k' !in "REFCUSTINVOICETRANSRECID"
  {
  }

  lemma NoKIn3()
    ensures 'K' !in "INVOICECODE" && 'k' !in "INVOICECODE"
    ensures 'K' !in "INVOICEID" && 'k' !in "INVOICEID"
    ensures 'K' !in "SALESID" && 'k' !in "SALESID"
  {
  }

  lemma NoKIn4()
    ensures 'K' !in "DEV_INVOICEID" && 'k' !in "DEV_INVOICEID"
    ensures 'K' !in "DEV_SALESID" && 'k' !in "DEV_SALESID"
    ensures 'K' !in "ITEMID" && 'k' !in "ITEMID"
  {
  }

  lemma NoKIn5()
    ensures 'K' !in "CONFIGID" && 'k' !in "CONFIGID"
    ensures 'K' !in "INVENTCOLORID" && 'k' !in "INVENTCOLORID"
    ensures 'K' !in "INVENTSIZEID" && 'k' !in "INVENTSIZEID"
  {
  }

  lemma NoKIn6()
    ensures 'K' !in "INVENTSTYLEID" && 'k' !in "INVENTSTYLEID"
    ensures 'K' !in "INVENTSTATUSID" && 'k' !in "INVENTSTATUSID"
  {
  }

  lemma NoKIn7()
    ensures 'K' !in "INVENTLOCATIONID" && 'k' !in "INVENTLOCATIONID"
  {
  }

  lemma NoKIn8()
    ensures 'K' !in "LINECREATIONSEQUENCENUMBER" && 'k' !in "LINECREATIONSEQUENCENUMBER"
  {
  }

  lemma NoKNormalForm(c: string)
    requires 'K' !in c && 'k' !in c
    ensures 'K' !in NormalizeKey(c)
  {
    var kept := KeepAlnum(c);
    AlnumToUpper(kept);
    forall i | 0 <= i < |NormalizeKey(c)| ensures NormalizeKey(c)[i] != 'K' {
      assert kept[i] in c;
    }
  }

  lemma {:induction false} KeepAlnumKeeps(s: string, c: char)
    requires c in s && IsAsciiAlnum(c)
    ensures c in KeepAlnum(s)
  {
    if s[0] != c {
      KeepAlnumKeeps(s[1..], c);
    }
  }

  /** An upper-case `K` in a name survives normalisation. */
  lemma KInNormalForm(s: string)
    requires 'K' in s
    ensures 'K' in NormalizeKey(s)
  {
    var kept := KeepAlnum(s);
    KeepAlnumKeeps(s, 'K');
    AlnumToUpper(kept);
    var i :| 0 <= i < |kept| && kept[i] == 'K';
    assert NormalizeKey(s)[i] == 'K';
  }

  /** `SALESLINEPK` is not one of its own 17 columns, so the key never depends on
      a stored key. */
  lemma SalesLinePkColumnUnrelated()
    ensures NormalizeKey("SALESLINEPK") !in NormalizedSequence()
  {
    assert 'K' in "SALESLINEPK" by { assert "SALESLINEPK"[10] == 'K'; }
    KInNormalForm("SALESLINEPK");
    SequenceHasNoK();
    forall i | 0 <= i < 17 ensures NormalizeKey(SALES_LINE_PK_SEQUENCE[i]) != NormalizeKey("SALESLINEPK") {
      NoKNormalForm(SALES_LINE_PK_SEQUENCE[i]);
    }
  }
}
