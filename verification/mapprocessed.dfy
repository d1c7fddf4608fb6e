/**
 * The field-alignment step of the mapping script: which OData field names
 * correspond to which columns of the processed Snowflake table, matched by
 * normalised name, each with a sample value, and which Snowflake columns no
 * OData field reaches.
 */
module MapProcessed {
  import opened Wrappers
  import opened JsString
  import opened JsValue
  import SalesLinePk
  import opened Seqs

  // ---------------------------------------------------------------- key normalisation

  predicate IsUpperAlnum(c: char) { IsDigit(c) || IsAsciiUpper(c) }

  /** `s.replace(/[^A-Z0-9]/g, '')` */
  function KeepUpperAlnum(s: string): (r: string)
    ensures |r| <= |s|
    ensures forall i :: 0 <= i < |r| ==> IsUpperAlnum(r[i])
  {
    if s == [] then [] else (if IsUpperAlnum(s[0]) then [s[0]] else []) + KeepUpperAlnum(s[1..])
  }

  lemma {:induction false} KeepUpperAlnumAppend(a: string, b: string)
    ensures KeepUpperAlnum(a + b) == KeepUpperAlnum(a) + KeepUpperAlnum(b)
  {
    if a == [] {
      assert a + b == b;
    } else {
      var head := if IsUpperAlnum(a[0]) then [a[0]] else [];
      assert (a + b)[0] == a[0];
      assert (a + b)[1..] == a[1..] + b;
      assert KeepUpperAlnum(a + b) == head + KeepUpperAlnum(a[1..] + b);
      assert KeepUpperAlnum(a) == head + KeepUpperAlnum(a[1..]);
      KeepUpperAlnumAppend(a[1..], b);
      assert head + (KeepUpperAlnum(a[1..]) + KeepUpperAlnum(b)) == (head + KeepUpperAlnum(a[1..])) + KeepUpperAlnum(b);
    }
  }

  /** The script's own normalisation: upper-case the whole name first, then keep only A-Z and 0-9. */
  function NormalizeKey(key: string): (r: string)
    ensures forall i :: 0 <= i < |r| ==> IsUpperAlnum(r[i])
  {
    KeepUpperAlnum(ToUpper(key))
  }

  lemma {:induction false} NormalizedIsFixed(s: string)
    requires forall i :: 0 <= i < |s| ==> IsUpperAlnum(s[i])
    ensures ToUpper(s) == s && KeepUpperAlnum(s) == s
  {
    if s != [] {
      NormalizedIsFixed(s[1..]);
    }
  }

  /** Normalising a normalised name changes nothing. */
  lemma NormalizeKeyIdempotent(key: string)
    ensures NormalizeKey(NormalizeKey(key)) == NormalizeKey(key)
  {
    NormalizedIsFixed(NormalizeKey(key));
  }

  /** On names made of ASCII characters the script's normalisation and the one of
      the key builder agree. */
  lemma {:induction false} NormalizeKeyAgreesOnAscii(key: string)
    requires forall i :: 0 <= i < |key| ==> IsAscii(key[i])
    ensures NormalizeKey(key) == SalesLinePk.NormalizeKey(key)
  {
    if key != [] {
      var c := key[0];
      assert key == [c] + key[1..];
      NormalizeKeyAgreesOnAscii(key[1..]);
      SalesLinePk.NormalizeKeyAppend([c], key[1..]);
      SalesLinePk.NormalizeKeyChar(c);
      ToUpperAppend([c], key[1..]);
      assert ToUpper([c]) == UpperChar(c) + ToUpper([]);
      KeepUpperAlnumAppend(ToUpper([c]), ToUpper(key[1..]));
      assert KeepUpperAlnum(ToUpper([c])) == if IsAsciiAlnum(c) then [AsciiFold(c)] else [] by {
        assert ToUpper([c]) == [AsciiFold(c)];
        assert [AsciiFold(c)][1..] == [];
      }
    }
  }

  /** Off ASCII the two differ: the script upper-cases `ß` to `SS` before filtering and keeps it,
      the key builder filters first and drops it. */
  lemma SharpSKeptOnlyByScript()
    ensures NormalizeKey("\U{00DF}") == "SS"
    ensures SalesLinePk.NormalizeKey("\U{00DF}") == ""
  {
    ScriptUpperSharpS();
    assert KeepUpperAlnum("SS") == ['S'] + KeepUpperAlnum("S");
    KeyBuilderDropsSharpS();
  }

  lemma ScriptUpperSharpS()
    ensures ToUpper("\U{00DF}") == "SS"
  {
    assert ToUpper("\U{00DF}") == "SS" + ToUpper([]);
  }

  lemma KeyBuilderDropsSharpS()
    ensures SalesLinePk.NormalizeKey("\U{00DF}") == ""
  {
    assert SalesLinePk.KeepAlnum("\U{00DF}") == [] + SalesLinePk.KeepAlnum([]);
  }

  // ---------------------------------------------------------------- samples

  /** A string shortened to at most 80 characters: the first 77 and an ellipsis. */
  function Shorten(s: string): (r: string)
    ensures |r| <= 80
    ensures |s| <= 80 ==> r == s
    ensures |s| > 80 ==> |r| == 80 && r[..77] == s[..77] && r[77..] == "..."
  {
    if |s| > 80 then s[..77] + "..." else s
  }

  /** `sampleValue`: `null` for null and undefined, the JSON text of an object (`[object]` when
      serialising throws, which `stringify` reports as `None`), otherwise `String(value)` shortened. */
  function SampleValue(value: Value, stringify: Value -> Option<string>): Value {
    if Nullish(value) then Null
    else if IsObjectLike(value) then
      match stringify(value)
      case Some(json) => Str(json)
      case None => Str("[object]")
    else Str(Shorten(ToStr(value)))
  }

  /** A sample is `null` exactly for null and undefined and a string otherwise; a primitive's sample is
      at most 80 characters long and is its `String` rendering whenever that fits. */
  lemma SampleValueShape(value: Value, stringify: Value -> Option<string>)
    ensures var r := SampleValue(value, stringify);
            && (r.Null? <==> Nullish(value))
            && (r.Null? || r.Str?)
            && (!Nullish(value) && !IsObjectLike(value) ==> r.Str? && |r.s| <= 80 && (|ToStr(value)| <= 80 ==> r.s == ToStr(value)))
            && (IsObjectLike(value) ==> r == Str(stringify(value).GetOr("[object]")))
  {
  }

  // ---------------------------------------------------------------- first-seen keys

  /** An insertion-ordered `Map` from field name to sample. */
  datatype KeySamples = KeySamples(order: seq<string>, sample: map<string, Value>) {
    predicate Valid() {
      && (forall k :: k in sample ==> k in order)
      && (forall k :: k in order ==> k in sample)
      && (forall p, q :: 0 <= p < q < |order| ==> order[p] != order[q])
    }

    /** `map.get(k)`: `undefined` for a name the map does not hold. */
    function Get(k: string): Value {
      if k in sample then sample[k] else Undef
    }
  }

  /** Every entry of every row, rows in order and each row's entries in order. */
  function Flatten(rows: seq<Record>): seq<Field> {
    if rows == [] then [] else Flatten(rows[..|rows| - 1]) + rows[|rows| - 1]
  }

  /** The name-to-sample map built by visiting `entries` in order and recording a name only the
      first time it is met. */
  function Collect(entries: seq<Field>, stringify: Value -> Option<string>): KeySamples {
    if entries == [] then KeySamples([], map[])
    else
      var acc := Collect(entries[..|entries| - 1], stringify);
      var e := entries[|entries| - 1];
      if e.key in acc.sample then acc
      else KeySamples(acc.order + [e.key], acc.sample[e.key := SampleValue(e.val, stringify)])
  }

  predicate HasKey(entries: seq<Field>, k: string) {
    exists i :: 0 <= i < |entries| && entries[i].key == k
  }

  /** The position of the first entry named `k`. */
  function FirstIndex(entries: seq<Field>, k: string): (i: nat)
    requires HasKey(entries, k)
    ensures i < |entries| && entries[i].key == k
  {
    if entries[0].key == k then 0
    else
      assert HasKey(entries[1..], k) by {
        var i :| 0 <= i < |entries| && entries[i].key == k;
        assert entries[1..][i - 1].key == k;
      }
      1 + FirstIndex(entries[1..], k)
  }

  /** No entry before `FirstIndex` carries the name. */
  lemma {:induction false} FirstIndexMinimal(entries: seq<Field>, k: string)
    requires HasKey(entries, k)
    ensures forall j :: 0 <= j < FirstIndex(entries, k) ==> entries[j].key != k
  {
    if entries[0].key != k {
      assert HasKey(entries[1..], k) by {
        var i :| 0 <= i < |entries| && entries[i].key == k;
        assert entries[1..][i - 1].key == k;
      }
      FirstIndexMinimal(entries[1..], k);
      forall j | 1 <= j < FirstIndex(entries, k)
        ensures entries[j].key != k
      {
        assert entries[j] == entries[1..][j - 1];
      }
    }
  }

  /** A name occurs in a non-empty sequence iff it occurs before the last entry or names the last entry. */
  lemma HasKeySplit(entries: seq<Field>)
    requires entries != []
    ensures forall k :: HasKey(entries, k) <==> HasKey(entries[..|entries| - 1], k) || k == entries[|entries| - 1].key
  {
    var n := |entries| - 1;
    var prefix := entries[..n];
    forall k | HasKey(entries, k) && k != entries[n].key
      ensures HasKey(prefix, k)
    {
      var i :| 0 <= i < |entries| && entries[i].key == k;
      assert prefix[i].key == k;
    }
    forall k | HasKey(prefix, k)
      ensures HasKey(entries, k)
    {
      var i :| 0 <= i < |prefix| && prefix[i].key == k;
      assert entries[i].key == k;
    }
    assert entries[n].key == entries[n].key;
  }

  /** The first entry named `k` in a prefix is the first one in the whole sequence. */
  lemma {:induction false} FirstIndexPrefix(entries: seq<Field>, n: nat, k: string)
    requires n <= |entries| && HasKey(entries[..n], k)
    ensures HasKey(entries, k) && FirstIndex(entries, k) == FirstIndex(entries[..n], k)
  {
    var i := FirstIndex(entries[..n], k);
    assert entries[i].key == k;
    if entries[0].key != k {
      assert entries[..n][1..] == entries[1..][..n - 1];
      FirstIndexPrefix(entries[1..], n - 1, k);
    }
  }

  /** A name first met in the last entry has that entry as its first position. */
  lemma FirstIndexLast(entries: seq<Field>)
    requires entries != [] && !HasKey(entries[..|entries| - 1], entries[|entries| - 1].key)
    ensures HasKey(entries, entries[|entries| - 1].key)
    ensures FirstIndex(entries, entries[|entries| - 1].key) == |entries| - 1
  {
    var n := |entries| - 1;
    assert entries[n].key == entries[n].key;
    forall j | 0 <= j < n
      ensures entries[j].key != entries[n].key
    {
      assert entries[..n][j] == entries[j];
    }
  }

  /** `Collect` records exactly the names met, each once. */
  lemma {:induction false} CollectDomain(entries: seq<Field>, stringify: Value -> Option<string>)
    ensures Collect(entries, stringify).Valid()
    ensures forall k :: k in Collect(entries, stringify).sample <==> HasKey(entries, k)
  {
    if entries != [] {
      CollectDomain(entries[..|entries| - 1], stringify);
      HasKeySplit(entries);
    }
  }

  /** Each recorded name carries the sample of its first entry. */
  lemma {:induction false} CollectSamples(entries: seq<Field>, stringify: Value -> Option<string>)
    ensures forall k :: k in Collect(entries, stringify).sample ==>
              HasKey(entries, k) && Collect(entries, stringify).sample[k] == SampleValue(entries[FirstIndex(entries, k)].val, stringify)
  {
    if entries != [] {
      var n := |entries| - 1;
      var prefix := entries[..n];
      var acc := Collect(prefix, stringify);
      CollectSamples(prefix, stringify);
      CollectDomain(prefix, stringify);
      CollectDomain(entries, stringify);
      forall k | k in acc.sample
        ensures FirstIndex(entries, k) == FirstIndex(prefix, k)
      {
        FirstIndexPrefix(entries, n, k);
      }
      if entries[n].key !in acc.sample {
        FirstIndexLast(entries);
      }
    }
  }

  /** Every name of `order` occurs in `entries`, and their first entries come in the order of `order`. */
  predicate OrderedByFirstEntry(entries: seq<Field>, order: seq<string>) {
    && (forall p :: 0 <= p < |order| ==> HasKey(entries, order[p]))
    && (forall p, q :: 0 <= p < q < |order| ==> FirstIndex(entries, order[p]) < FirstIndex(entries, order[q]))
  }

  /** The recorded names are listed in the order of their first entries. */
  lemma {:induction false} CollectOrder(entries: seq<Field>, stringify: Value -> Option<string>)
    ensures OrderedByFirstEntry(entries, Collect(entries, stringify).order)
  {
    if entries != [] {
      var n := |entries| - 1;
      var prefix := entries[..n];
      var acc := Collect(prefix, stringify);
      CollectOrder(prefix, stringify);
      CollectDomain(prefix, stringify);
      OrderedPrefix(entries, n, acc.order);
      if entries[n].key !in acc.sample {
        FirstIndexLast(entries);
        OrderedAppendLast(entries, acc.order);
      } else {
        assert Collect(entries, stringify) == acc;
      }
    }
  }

  /** The first entries of names met in a prefix are the same in the whole sequence. */
  lemma OrderedPrefix(entries: seq<Field>, n: nat, order: seq<string>)
    requires n <= |entries| && OrderedByFirstEntry(entries[..n], order)
    ensures OrderedByFirstEntry(entries, order)
    ensures forall p :: 0 <= p < |order| ==> FirstIndex(entries, order[p]) < n
  {
    forall p | 0 <= p < |order|
      ensures HasKey(entries, order[p]) && FirstIndex(entries, order[p]) == FirstIndex(entries[..n], order[p])
    {
      FirstIndexPrefix(entries, n, order[p]);
    }
    forall p, q | 0 <= p < q < |order|
      ensures FirstIndex(entries, order[p]) < FirstIndex(entries, order[q])
    {
      assert FirstIndex(entries[..n], order[p]) < FirstIndex(entries[..n], order[q]);
    }
  }

  /** A name first met in the last entry may follow names all met before it. */
  lemma OrderedAppendLast(entries: seq<Field>, order: seq<string>)
    requires entries != []
    requires OrderedByFirstEntry(entries, order)
    requires forall p :: 0 <= p < |order| ==> FirstIndex(entries, order[p]) < |entries| - 1
    requires HasKey(entries, entries[|entries| - 1].key)
    requires FirstIndex(entries, entries[|entries| - 1].key) == |entries| - 1
    ensures OrderedByFirstEntry(entries, order + [entries[|entries| - 1].key])
  {
    var last := entries[|entries| - 1].key;
    var ks := order + [last];
    forall p | 0 <= p < |ks| ensures HasKey(entries, ks[p]) {
      if p < |order| { assert ks[p] == order[p]; }
    }
    forall p, q | 0 <= p < q < |ks|
      ensures FirstIndex(entries, ks[p]) < FirstIndex(entries, ks[q])
    {
      OrderedAppendLastPair(entries, order, p, q);
    }
  }

  lemma OrderedAppendLastPair(entries: seq<Field>, order: seq<string>, p: nat, q: nat)
    requires entries != []
    requires OrderedByFirstEntry(entries, order)
    requires forall p :: 0 <= p < |order| ==> FirstIndex(entries, order[p]) < |entries| - 1
    requires HasKey(entries, entries[|entries| - 1].key)
    requires FirstIndex(entries, entries[|entries| - 1].key) == |entries| - 1
    requires p < q <= |order|
    ensures var ks := order + [entries[|entries| - 1].key];
            HasKey(entries, ks[p]) && HasKey(entries, ks[q]) &&
            FirstIndex(entries, ks[p]) < FirstIndex(entries, ks[q])
  {
    var ks := order + [entries[|entries| - 1].key];
    assert ks[p] == order[p];
    if q < |order| {
      assert ks[q] == order[q];
    } else {
      assert ks[q] == entries[|entries| - 1].key;
    }
  }

  /** Visiting one more entry. */
  lemma CollectSnoc(entries: seq<Field>, e: Field, stringify: Value -> Option<string>)
    ensures var acc := Collect(entries, stringify);
            Collect(entries + [e], stringify) ==
              if e.key in acc.sample then acc
              else KeySamples(acc.order + [e.key], acc.sample[e.key := SampleValue(e.val, stringify)])
  {
    assert (entries + [e])[..|entries|] == entries;
  }

  lemma FlattenSnoc(rows: seq<Record>, i: nat)
    requires i < |rows|
    ensures Flatten(rows[..i + 1]) == Flatten(rows[..i]) + rows[i]
  {
    assert rows[..i + 1][..i] == rows[..i];
  }

  /** The inner loop: the entries of one row, continuing from what earlier rows recorded. */
  method CollectRow(ks0: KeySamples, ghost seen: seq<Field>, row: Record, stringify: Value -> Option<string>)
    returns (ks: KeySamples)
    requires ks0 == Collect(seen, stringify)
    ensures ks == Collect(seen + row, stringify)
  {
    ks := ks0;
    var j := 0;
    assert seen + row[..0] == seen;
    while j < |row|
      invariant 0 <= j <= |row|
      invariant ks == Collect(seen + row[..j], stringify)
    {
      var entry := row[j];
      CollectSnoc(seen + row[..j], entry, stringify);
      AppendPrefixStep(seen, row, j);
      if entry.key !in ks.sample {
        ks := KeySamples(ks.order + [entry.key], ks.sample[entry.key := SampleValue(entry.val, stringify)]);
      }
      j := j + 1;
    }
    assert row[..|row|] == row;
  }

  /** The first-seen loop over all rows. */
  method CollectKeys(rows: seq<Record>, stringify: Value -> Option<string>) returns (ks: KeySamples)
    ensures ks == Collect(Flatten(rows), stringify)
  {
    ks := KeySamples([], map[]);
    var i := 0;
    while i < |rows|
      invariant 0 <= i <= |rows|
      invariant ks == Collect(Flatten(rows[..i]), stringify)
    {
      FlattenSnoc(rows, i);
      ks := CollectRow(ks, Flatten(rows[..i]), rows[i], stringify);
      i := i + 1;
    }
    assert rows[..|rows|] == rows;
  }

  // ---------------------------------------------------------------- the Snowflake index

  /** `snowIndex`: normalised name to Snowflake name, filled in first-seen order, so a later name
      overwrites an earlier one with the same normal form. */
  function SnowIndex(order: seq<string>): map<string, string> {
    if order == [] then map[]
    else SnowIndex(order[..|order| - 1])[NormalizeKey(order[|order| - 1]) := order[|order| - 1]]
  }

  predicate HasNormal(order: seq<string>, n: string) {
    exists i :: 0 <= i < |order| && NormalizeKey(order[i]) == n
  }

  /** The index holds exactly the normal forms of the names, each mapped to a name of that normal form. */
  lemma SnowIndexDomain(order: seq<string>)
    ensures forall n :: n in SnowIndex(order) <==> HasNormal(order, n)
    ensures forall n :: n in SnowIndex(order) ==> SnowIndex(order)[n] in order && NormalizeKey(SnowIndex(order)[n]) == n
  {
    SnowIndexKeys(order);
    SnowIndexValues(order);
  }

  lemma {:induction false} SnowIndexValues(order: seq<string>)
    ensures forall n :: n in SnowIndex(order) ==> SnowIndex(order)[n] in order && NormalizeKey(SnowIndex(order)[n]) == n
  {
    if order != [] {
      var prefix := order[..|order| - 1];
      SnowIndexValues(prefix);
      forall n | n in SnowIndex(order)
        ensures SnowIndex(order)[n] in order && NormalizeKey(SnowIndex(order)[n]) == n
      {
        if n != NormalizeKey(order[|order| - 1]) {
          assert SnowIndex(order)[n] == SnowIndex(prefix)[n];
          assert SnowIndex(prefix)[n] in prefix;
        }
      }
    }
  }

  lemma {:induction false} SnowIndexKeys(order: seq<string>)
    ensures forall n :: n in SnowIndex(order) <==> HasNormal(order, n)
  {
    if order != [] {
      SnowIndexKeys(order[..|order| - 1]);
      HasNormalSplit(order);
    }
  }

  /** A normal form occurs in a non-empty list iff it occurs before the last name or is the last name's. */
  lemma HasNormalSplit(order: seq<string>)
    requires order != []
    ensures forall n :: HasNormal(order, n) <==>
              HasNormal(order[..|order| - 1], n) || n == NormalizeKey(order[|order| - 1])
  {
    var prefix := order[..|order| - 1];
    forall n | HasNormal(order, n) && n != NormalizeKey(order[|order| - 1])
      ensures HasNormal(prefix, n)
    {
      var i :| 0 <= i < |order| && NormalizeKey(order[i]) == n;
      assert NormalizeKey(prefix[i]) == n;
    }
    forall n | HasNormal(prefix, n)
      ensures HasNormal(order, n)
    {
      var i :| 0 <= i < |prefix| && NormalizeKey(prefix[i]) == n;
      assert NormalizeKey(order[i]) == n;
    }
    assert NormalizeKey(order[|order| - 1]) == NormalizeKey(order[|order| - 1]);
  }

  /** A name that no later name shadows is the one the index keeps for its normal form. */
  lemma {:induction false} SnowIndexLastWins(order: seq<string>, i: nat)
    requires i < |order|
    requires forall j :: i < j < |order| ==> NormalizeKey(order[j]) != NormalizeKey(order[i])
    ensures NormalizeKey(order[i]) in SnowIndex(order) && SnowIndex(order)[NormalizeKey(order[i])] == order[i]
  {
    if i < |order| - 1 {
      var prefix := order[..|order| - 1];
      assert prefix[i] == order[i];
      SnowIndexLastWins(prefix, i);
    }
  }

  /** Distinct names with the same normal form: the index never keeps the earlier one. */
  lemma {:induction false} EarlierNameShadowed(order: seq<string>, p: nat, q: nat)
    requires p < q < |order|
    requires forall a, b :: 0 <= a < b < |order| ==> order[a] != order[b]
    requires NormalizeKey(order[p]) == NormalizeKey(order[q])
    ensures NormalizeKey(order[p]) in SnowIndex(order) && SnowIndex(order)[NormalizeKey(order[p])] != order[p]
  {
    var prefix := order[..|order| - 1];
    if q < |order| - 1 {
      assert prefix[p] == order[p] && prefix[q] == order[q];
      EarlierNameShadowed(prefix, p, q);
    }
  }

  /** So the earlier name is no value of the index at all. */
  lemma EarlierNameNeverIndexed(order: seq<string>, p: nat, q: nat)
    requires p < q < |order|
    requires forall a, b :: 0 <= a < b < |order| ==> order[a] != order[b]
    requires NormalizeKey(order[p]) == NormalizeKey(order[q])
    ensures forall n :: n in SnowIndex(order) ==> SnowIndex(order)[n] != order[p]
  {
    EarlierNameShadowed(order, p, q);
    SnowIndexDomain(order);
  }

  // ---------------------------------------------------------------- mappings

  datatype Mapping = Mapping(odataField: string, odataSample: Value, snowflakeField: Value, snowflakeSample: Value)
  datatype SnowOnly = SnowOnly(field: string, sample: Value)
  datatype Alignment = Alignment(mappings: seq<Mapping>, snowflakeOnly: seq<SnowOnly>)

  /** `snowIndex.get(normalizeKey(key))`, kept only when truthy (the empty name is falsy). */
  function MatchOf(index: map<string, string>, key: string): Option<string> {
    var n := NormalizeKey(key);
    if n in index && index[n] != "" then Some(index[n]) else None
  }

  function MappingFor(odata: KeySamples, snow: KeySamples, index: map<string, string>, key: string): Mapping {
    match MatchOf(index, key)
    case Some(s) => Mapping(key, odata.Get(key), Str(s), snow.Get(s))
    case None => Mapping(key, odata.Get(key), Null, Null)
  }

  function MappingsOf(odata: KeySamples, snow: KeySamples, index: map<string, string>): seq<Mapping> {
    seq(|odata.order|, i requires 0 <= i < |odata.order| => MappingFor(odata, snow, index, odata.order[i]))
  }

  /** The `matchedSnow` set after the mapping loop has visited the first `n` keys. */
  function MatchedUpTo(keys: seq<string>, n: nat, index: map<string, string>): set<string>
    requires n <= |keys|
  {
    if n == 0 then {}
    else
      var rest := MatchedUpTo(keys, n - 1, index);
      match MatchOf(index, keys[n - 1])
      case Some(s) => rest + {s}
      case None => rest
  }

  /** The `matchedSnow` set once the mapping loop has visited every key. */
  function MatchedOf(keys: seq<string>, index: map<string, string>): set<string> {
    MatchedUpTo(keys, |keys|, index)
  }

  lemma {:induction false} MatchedUpToMembers(keys: seq<string>, n: nat, index: map<string, string>)
    requires n <= |keys|
    ensures forall s :: s in MatchedUpTo(keys, n, index) <==> exists i :: 0 <= i < n && MatchOf(index, keys[i]) == Some(s)
  {
    if n > 0 {
      MatchedUpToMembers(keys, n - 1, index);
      var last := MatchOf(index, keys[n - 1]);
      MatchedUpToStep(keys, n, index);
      forall s | s in MatchedUpTo(keys, n, index)
        ensures exists i :: 0 <= i < n && MatchOf(index, keys[i]) == Some(s)
      {
        if last != Some(s) {
          assert s in MatchedUpTo(keys, n - 1, index);
        }
      }
      forall s, i | 0 <= i < n && MatchOf(index, keys[i]) == Some(s)
        ensures s in MatchedUpTo(keys, n, index)
      {
        if i < n - 1 {
          assert s in MatchedUpTo(keys, n - 1, index);
        }
      }
    }
  }

  lemma MatchedUpToStep(keys: seq<string>, n: nat, index: map<string, string>)
    requires 0 < n <= |keys|
    ensures var last := MatchOf(index, keys[n - 1]);
            MatchedUpTo(keys, n, index) == MatchedUpTo(keys, n - 1, index) + (if last.Some? then {last.value} else {})
  {
  }

  lemma MatchedOfMembers(keys: seq<string>, index: map<string, string>)
    ensures forall s :: s in MatchedOf(keys, index) <==> exists i :: 0 <= i < |keys| && MatchOf(index, keys[i]) == Some(s)
  {
    MatchedUpToMembers(keys, |keys|, index);
  }

  /** `snowflakeOnly`: the Snowflake names outside `matched`, in first-seen order. */
  function OnlyOf(snow: KeySamples, keys: seq<string>, matched: set<string>): seq<SnowOnly> {
    if keys == [] then []
    else
      var rest := OnlyOf(snow, keys[..|keys| - 1], matched);
      var k := keys[|keys| - 1];
      if k in matched then rest else rest + [SnowOnly(k, snow.Get(k))]
  }

  lemma {:induction false} OnlyOfMembers(snow: KeySamples, keys: seq<string>, matched: set<string>)
    ensures forall i :: 0 <= i < |OnlyOf(snow, keys, matched)| ==>
              OnlyOf(snow, keys, matched)[i].field in keys && OnlyOf(snow, keys, matched)[i].field !in matched &&
              OnlyOf(snow, keys, matched)[i].sample == snow.Get(OnlyOf(snow, keys, matched)[i].field)
    ensures forall k :: k in keys && k !in matched ==> exists i :: 0 <= i < |OnlyOf(snow, keys, matched)| && OnlyOf(snow, keys, matched)[i].field == k
  {
    if keys != [] {
      var prefix := keys[..|keys| - 1];
      OnlyOfMembers(snow, prefix, matched);
      var rest := OnlyOf(snow, prefix, matched);
      var only := OnlyOf(snow, keys, matched);
      assert forall k :: k in keys <==> k in prefix || k == keys[|keys| - 1];
      forall k | k in keys && k !in matched
        ensures exists i :: 0 <= i < |only| && only[i].field == k
      {
        if k in prefix {
          var i :| 0 <= i < |rest| && rest[i].field == k;
          assert only[i] == rest[i];
        } else {
          assert only[|only| - 1].field == k;
        }
      }
    }
  }

  /** `alignFields` on the two row lists, as a function of them. */
  function Align(odataRows: seq<Record>, snowRows: seq<Record>, stringify: Value -> Option<string>): Alignment {
    var odata := Collect(Flatten(odataRows), stringify);
    var snow := Collect(Flatten(snowRows), stringify);
    var index := SnowIndex(snow.order);
    Alignment(MappingsOf(odata, snow, index), OnlyOf(snow, snow.order, MatchedOf(odata.order, index)))
  }

  method BuildSnowIndex(order: seq<string>) returns (index: map<string, string>)
    ensures index == SnowIndex(order)
  {
    index := map[];
    var i := 0;
    while i < |order|
      invariant 0 <= i <= |order|
      invariant index == SnowIndex(order[..i])
    {
      PrefixStep(order, i);
      index := index[NormalizeKey(order[i]) := order[i]];
      i := i + 1;
    }
    PrefixWhole(order);
  }

  /** One more key visited by the mapping loop. */
  /** One visit of the mapping loop adds the next key's mapping. */
  lemma MappingStep(odata: KeySamples, snow: KeySamples, index: map<string, string>, i: nat,
                    mappings: seq<Mapping>, mapping: Mapping)
    requires i < |odata.order| && |mappings| == i
    requires forall j :: 0 <= j < i ==> mappings[j] == MappingFor(odata, snow, index, odata.order[j])
    requires mapping == MappingFor(odata, snow, index, odata.order[i])
    ensures var ms := mappings + [mapping];
            forall j :: 0 <= j < i + 1 ==> ms[j] == MappingFor(odata, snow, index, odata.order[j])
  {
  }

  /** One visit of the mapping loop adds the next key's match, if any. */
  lemma MatchedStep(keys: seq<string>, index: map<string, string>, i: nat, snowKey: string)
    requires i < |keys| && MatchOf(index, keys[i]) == if snowKey != "" then Some(snowKey) else None
    ensures MatchedUpTo(keys, i + 1, index) ==
            if snowKey != "" then MatchedUpTo(keys, i, index) + {snowKey} else MatchedUpTo(keys, i, index)
  {
  }

  /** One visit of the mapping loop: the key's mapping, and the matched Snowflake
      name (`""` when there is none). */
  method MapKey(odata: KeySamples, snow: KeySamples, index: map<string, string>, key: string)
    returns (mapping: Mapping, snowKey: string)
    ensures mapping == MappingFor(odata, snow, index, key)
    ensures MatchOf(index, key) == if snowKey != "" then Some(snowKey) else None
  {
    var value := odata.Get(key);
    var normalized := NormalizeKey(key);
    snowKey := if normalized in index then index[normalized] else "";
    mapping := Mapping(key, value, if snowKey != "" then Str(snowKey) else Null,
                       if snowKey != "" then snow.Get(snowKey) else Null);
  }

  /** A list holding the mapping of every OData key, in order, is `MappingsOf`. */
  lemma MappingsOfElements(odata: KeySamples, snow: KeySamples, index: map<string, string>, ms: seq<Mapping>)
    requires |ms| == |odata.order|
    requires forall j :: 0 <= j < |ms| ==> ms[j] == MappingFor(odata, snow, index, odata.order[j])
    ensures ms == MappingsOf(odata, snow, index)
  {
  }

  method BuildMappings(odata: KeySamples, snow: KeySamples, index: map<string, string>)
    returns (mappings: seq<Mapping>, matched: set<string>)
    ensures mappings == MappingsOf(odata, snow, index)
    ensures matched == MatchedOf(odata.order, index)
  {
    mappings := [];
    matched := {};
    var i := 0;
    while i < |odata.order|
      invariant 0 <= i <= |odata.order|
      invariant |mappings| == i
      invariant forall j :: 0 <= j < i ==> mappings[j] == MappingFor(odata, snow, index, odata.order[j])
      invariant matched == MatchedUpTo(odata.order, i, index)
    {
      var mapping, snowKey := MapKey(odata, snow, index, odata.order[i]);
      MappingStep(odata, snow, index, i, mappings, mapping);
      MatchedStep(odata.order, index, i, snowKey);
      if snowKey != "" {
        matched := matched + {snowKey};
      }
      mappings := mappings + [mapping];
      i := i + 1;
    }
    PrefixWhole(odata.order);
    MappingsOfElements(odata, snow, index, mappings);
  }

  method BuildSnowflakeOnly(snow: KeySamples, matched: set<string>) returns (only: seq<SnowOnly>)
    ensures only == OnlyOf(snow, snow.order, matched)
  {
    only := [];
    var i := 0;
    while i < |snow.order|
      invariant 0 <= i <= |snow.order|
      invariant only == OnlyOf(snow, snow.order[..i], matched)
    {
      var key := snow.order[i];
      PrefixStep(snow.order, i);
      if key !in matched {
        only := only + [SnowOnly(key, snow.Get(key))];
      }
      i := i + 1;
    }
    PrefixWhole(snow.order);
  }

  /** `alignFields(odataRows, snowRows)`. */
  method AlignFields(odataRows: seq<Record>, snowRows: seq<Record>, stringify: Value -> Option<string>)
    returns (result: Alignment)
    ensures result == Align(odataRows, snowRows, stringify)
  {
    var odataKeys := CollectKeys(odataRows, stringify);
    var snowKeys := CollectKeys(snowRows, stringify);
    var snowIndex := BuildSnowIndex(snowKeys.order);
    var mappings, matched := BuildMappings(odataKeys, snowKeys, snowIndex);
    var snowflakeOnly := BuildSnowflakeOnly(snowKeys, matched);
    result := Alignment(mappings, snowflakeOnly);
  }

  // ---------------------------------------------------------------- properties of the alignment

  /** The OData field names of the mappings, in order. */
  function OdataFields(a: Alignment): seq<string> {
    seq(|a.mappings|, i requires 0 <= i < |a.mappings| => a.mappings[i].odataField)
  }

  lemma OdataFieldsAreFirstSeen(odataRows: seq<Record>, snowRows: seq<Record>, stringify: Value -> Option<string>)
    ensures OdataFields(Align(odataRows, snowRows, stringify)) == Collect(Flatten(odataRows), stringify).order
  {
    var a := Align(odataRows, snowRows, stringify);
    var odata := Collect(Flatten(odataRows), stringify);
    var snow := Collect(Flatten(snowRows), stringify);
    assert a.mappings == MappingsOf(odata, snow, SnowIndex(snow.order));
  }

  /** One mapping per distinct OData field name met in the rows, in the order the names are first met. */
  lemma MappingPerOdataField(odataRows: seq<Record>, snowRows: seq<Record>, stringify: Value -> Option<string>)
    ensures var fields := OdataFields(Align(odataRows, snowRows, stringify));
            && (forall k :: HasKey(Flatten(odataRows), k) <==> k in fields)
            && (forall i, j :: 0 <= i < j < |fields| ==> fields[i] != fields[j])
            && OrderedByFirstEntry(Flatten(odataRows), fields)
  {
    var entries := Flatten(odataRows);
    CollectDomain(entries, stringify);
    CollectOrder(entries, stringify);
    OdataFieldsAreFirstSeen(odataRows, snowRows, stringify);
  }

  /** Each mapping carries the sample of the first entry with its OData field name. */
  lemma MappingOdataSample(odataRows: seq<Record>, snowRows: seq<Record>, stringify: Value -> Option<string>, i: nat)
    requires i < |Align(odataRows, snowRows, stringify).mappings|
    ensures var m := Align(odataRows, snowRows, stringify).mappings[i];
            HasKey(Flatten(odataRows), m.odataField) &&
            m.odataSample == SampleValue(Flatten(odataRows)[FirstIndex(Flatten(odataRows), m.odataField)].val, stringify)
  {
    var entries := Flatten(odataRows);
    var odata := Collect(entries, stringify);
    var snow := Collect(Flatten(snowRows), stringify);
    var a := Align(odataRows, snowRows, stringify);
    assert a.mappings == MappingsOf(odata, snow, SnowIndex(snow.order));
    CollectDomain(entries, stringify);
    CollectSamples(entries, stringify);
    assert a.mappings[i].odataField == odata.order[i] && odata.order[i] in odata.sample;
  }

  /** A mapped Snowflake field has the OData field's normal form, is a Snowflake name, and carries
      that name's first-seen sample; an unmapped OData field has no non-empty Snowflake name with
      its normal form, unless the Snowflake rows also use the empty name. */
  lemma MappingMatchesNormalForm(odataRows: seq<Record>, snowRows: seq<Record>, stringify: Value -> Option<string>, i: nat)
    requires i < |Align(odataRows, snowRows, stringify).mappings|
    ensures var m := Align(odataRows, snowRows, stringify).mappings[i];
            var entries := Flatten(snowRows);
            && (m.snowflakeField.Str? ==>
                  && m.snowflakeField.s != ""
                  && NormalizeKey(m.snowflakeField.s) == NormalizeKey(m.odataField)
                  && HasKey(entries, m.snowflakeField.s)
                  && m.snowflakeSample == SampleValue(entries[FirstIndex(entries, m.snowflakeField.s)].val, stringify))
            && (m.snowflakeField.Null? ==>
                  m.snowflakeSample.Null? &&
                  ((forall j :: 0 <= j < |entries| && entries[j].key != "" ==> NormalizeKey(entries[j].key) != NormalizeKey(m.odataField))
                   || HasKey(entries, "")))
  {
    var entries := Flatten(snowRows);
    var snow := Collect(entries, stringify);
    var index := SnowIndex(snow.order);
    CollectDomain(entries, stringify);
    CollectSamples(entries, stringify);
    SnowIndexDomain(snow.order);
    var m := Align(odataRows, snowRows, stringify).mappings[i];
    var n := NormalizeKey(m.odataField);
    if m.snowflakeField.Str? {
      assert index[n] in snow.order;
    } else if n in index {
      assert index[n] == "" && "" in snow.order;
    } else {
      forall j | 0 <= j < |entries| && entries[j].key != ""
        ensures NormalizeKey(entries[j].key) != n
      {
        assert HasKey(entries, entries[j].key);
        assert entries[j].key in snow.order;
      }
    }
  }

  /** The Snowflake names some mapping reaches. */
  function MatchedFields(a: Alignment): set<string> {
    set i | 0 <= i < |a.mappings| && a.mappings[i].snowflakeField.Str? :: a.mappings[i].snowflakeField.s
  }

  /** The names listed as Snowflake-only. */
  function OnlyFields(a: Alignment): set<string> {
    set i | 0 <= i < |a.snowflakeOnly| :: a.snowflakeOnly[i].field
  }

  /** Every name some entry of the rows carries. */
  function Names(entries: seq<Field>): set<string> {
    set i | 0 <= i < |entries| :: entries[i].key
  }

  lemma MatchedFieldsAreMatched(odataRows: seq<Record>, snowRows: seq<Record>, stringify: Value -> Option<string>)
    ensures var odata := Collect(Flatten(odataRows), stringify);
            var snow := Collect(Flatten(snowRows), stringify);
            MatchedFields(Align(odataRows, snowRows, stringify)) == MatchedOf(odata.order, SnowIndex(snow.order))
  {
    var a := Align(odataRows, snowRows, stringify);
    var odata := Collect(Flatten(odataRows), stringify);
    var snow := Collect(Flatten(snowRows), stringify);
    var index := SnowIndex(snow.order);
    assert a.mappings == MappingsOf(odata, snow, index);
    MatchedOfMembers(odata.order, index);
    forall s | s in MatchedOf(odata.order, index)
      ensures s in MatchedFields(a)
    {
      var j :| 0 <= j < |odata.order| && MatchOf(index, odata.order[j]) == Some(s);
      assert a.mappings[j].snowflakeField == Str(s);
    }
    forall j | 0 <= j < |a.mappings| && a.mappings[j].snowflakeField.Str?
      ensures a.mappings[j].snowflakeField.s in MatchedOf(odata.order, index)
    {
      assert MatchOf(index, odata.order[j]) == Some(a.mappings[j].snowflakeField.s);
    }
  }

  lemma MatchedAreSnowflakeNames(keys: seq<string>, order: seq<string>)
    ensures forall s :: s in MatchedOf(keys, SnowIndex(order)) ==> s in order
  {
    MatchedOfMembers(keys, SnowIndex(order));
    SnowIndexDomain(order);
  }

  lemma OnlyFieldsAreUnmatched(snow: KeySamples, matched: set<string>)
    ensures (set i | 0 <= i < |OnlyOf(snow, snow.order, matched)| :: OnlyOf(snow, snow.order, matched)[i].field) ==
            (set k | k in snow.order) - matched
  {
    OnlyOfMembers(snow, snow.order, matched);
    var only := OnlyOf(snow, snow.order, matched);
    forall k | k in snow.order && k !in matched
      ensures k in (set i | 0 <= i < |only| :: only[i].field)
    {
      var i :| 0 <= i < |only| && only[i].field == k;
    }
  }

  lemma NamesAreCollected(entries: seq<Field>, stringify: Value -> Option<string>)
    ensures Names(entries) == set k | k in Collect(entries, stringify).order
  {
    var ks := Collect(entries, stringify);
    CollectDomain(entries, stringify);
    forall k | k in ks.order
      ensures k in Names(entries)
    {
      assert k in ks.sample;
      var i :| 0 <= i < |entries| && entries[i].key == k;
    }
    forall i | 0 <= i < |entries|
      ensures entries[i].key in ks.order
    {
      assert HasKey(entries, entries[i].key);
    }
  }

  /** The Snowflake names that some mapping reaches and the ones listed as Snowflake-only split
      the Snowflake names met in the rows: every name is in exactly one of the two. */
  lemma SnowflakeNamesPartitioned(odataRows: seq<Record>, snowRows: seq<Record>, stringify: Value -> Option<string>)
    ensures var a := Align(odataRows, snowRows, stringify);
            && MatchedFields(a) !! OnlyFields(a)
            && MatchedFields(a) + OnlyFields(a) == Names(Flatten(snowRows))
  {
    var a := Align(odataRows, snowRows, stringify);
    var odata := Collect(Flatten(odataRows), stringify);
    var snow := Collect(Flatten(snowRows), stringify);
    var matched := MatchedOf(odata.order, SnowIndex(snow.order));
    MatchedFieldsAreMatched(odataRows, snowRows, stringify);
    MatchedAreSnowflakeNames(odata.order, snow.order);
    OnlyFieldsAreUnmatched(snow, matched);
    assert a.snowflakeOnly == OnlyOf(snow, snow.order, matched);
    assert OnlyFields(a) == (set k | k in snow.order) - matched;
    NamesAreCollected(Flatten(snowRows), stringify);
  }

  /** The Snowflake-only list is in first-seen order and carries each name's first-seen sample. */
  lemma SnowflakeOnlyOrderAndSamples(odataRows: seq<Record>, snowRows: seq<Record>, stringify: Value -> Option<string>)
    ensures var only := Align(odataRows, snowRows, stringify).snowflakeOnly;
            var entries := Flatten(snowRows);
            && OrderedByFirstEntry(entries, OnlyNames(only))
            && forall i :: 0 <= i < |only| ==>
                 HasKey(entries, only[i].field) && only[i].sample == SampleValue(entries[FirstIndex(entries, only[i].field)].val, stringify)
  {
    var entries := Flatten(snowRows);
    var odata := Collect(Flatten(odataRows), stringify);
    var snow := Collect(entries, stringify);
    var matched := MatchedOf(odata.order, SnowIndex(snow.order));
    var only := OnlyOf(snow, snow.order, matched);
    assert Align(odataRows, snowRows, stringify).snowflakeOnly == only;
    CollectDomain(entries, stringify);
    CollectSamples(entries, stringify);
    CollectOrder(entries, stringify);
    OnlyOfSubsequence(snow, snow.order, matched, entries);
    OnlyOfMembers(snow, snow.order, matched);
  }

  /** The names of a Snowflake-only list, in order. */
  function OnlyNames(only: seq<SnowOnly>): (names: seq<string>)
    ensures |names| == |only| && forall i :: 0 <= i < |only| ==> names[i] == only[i].field
  {
    seq(|only|, i requires 0 <= i < |only| => only[i].field)
  }

  lemma PrefixOrdered(entries: seq<Field>, keys: seq<string>)
    requires keys != [] && OrderedByFirstEntry(entries, keys)
    ensures OrderedByFirstEntry(entries, keys[..|keys| - 1])
  {
    var prefix := keys[..|keys| - 1];
    forall p, q | 0 <= p < q < |prefix|
      ensures FirstIndex(entries, prefix[p]) < FirstIndex(entries, prefix[q])
    {
      assert prefix[p] == keys[p] && prefix[q] == keys[q];
    }
  }

  /** Appending a name whose first entry comes after all the others keeps the order. */
  lemma AppendOrdered(entries: seq<Field>, rest: seq<SnowOnly>, x: SnowOnly)
    requires OrderedByFirstEntry(entries, OnlyNames(rest)) && HasKey(entries, x.field)
    requires forall p :: 0 <= p < |rest| ==> HasKey(entries, rest[p].field) && FirstIndex(entries, rest[p].field) < FirstIndex(entries, x.field)
    ensures OrderedByFirstEntry(entries, OnlyNames(rest + [x]))
  {
    var names, before := OnlyNames(rest + [x]), OnlyNames(rest);
    forall p | 0 <= p < |names|
      ensures HasKey(entries, names[p])
    {
      if p < |rest| {
        assert names[p] == before[p];
      }
    }
    forall p, q | 0 <= p < q < |names|
      ensures FirstIndex(entries, names[p]) < FirstIndex(entries, names[q])
    {
      assert names[p] == before[p];
      if q < |rest| {
        assert names[q] == before[q];
      }
    }
  }

  /** Every Snowflake-only name drawn from the earlier names comes before the last name. */
  lemma RestBeforeLast(snow: KeySamples, keys: seq<string>, matched: set<string>, entries: seq<Field>, rest: seq<SnowOnly>)
    requires keys != [] && OrderedByFirstEntry(entries, keys)
    requires rest == OnlyOf(snow, keys[..|keys| - 1], matched)
    ensures forall p :: 0 <= p < |rest| ==>
              HasKey(entries, rest[p].field) && FirstIndex(entries, rest[p].field) < FirstIndex(entries, keys[|keys| - 1])
  {
    var prefix := keys[..|keys| - 1];
    OnlyOfMembers(snow, prefix, matched);
    forall p | 0 <= p < |rest|
      ensures HasKey(entries, rest[p].field) && FirstIndex(entries, rest[p].field) < FirstIndex(entries, keys[|keys| - 1])
    {
      var j :| 0 <= j < |prefix| && prefix[j] == rest[p].field;
      assert keys[j] == rest[p].field;
    }
  }

  /** `OnlyOf` keeps a subsequence of the names, so it keeps their order. */
  lemma {:induction false} OnlyOfSubsequence(snow: KeySamples, keys: seq<string>, matched: set<string>, entries: seq<Field>)
    requires OrderedByFirstEntry(entries, keys)
    ensures OrderedByFirstEntry(entries, OnlyNames(OnlyOf(snow, keys, matched)))
  {
    if keys != [] {
      var prefix := keys[..|keys| - 1];
      var last := keys[|keys| - 1];
      PrefixOrdered(entries, keys);
      OnlyOfSubsequence(snow, prefix, matched, entries);
      if last !in matched {
        var rest, x := OnlyOf(snow, prefix, matched), SnowOnly(last, snow.Get(last));
        RestBeforeLast(snow, keys, matched, entries, rest);
        assert HasKey(entries, x.field);
        AppendOrdered(entries, rest, x);
      }
    }
  }

  /** When two Snowflake names share a normal form, the earlier one is never matched and always
      lands among the Snowflake-only names. */
  lemma EarlierSnowflakeNameIsSnowflakeOnly(odataRows: seq<Record>, snowRows: seq<Record>, stringify: Value -> Option<string>, p: nat, q: nat)
    requires var order := Collect(Flatten(snowRows), stringify).order;
             p < q < |order| && NormalizeKey(order[p]) == NormalizeKey(order[q])
    ensures Collect(Flatten(snowRows), stringify).order[p] in OnlyFields(Align(odataRows, snowRows, stringify))
  {
    var odata := Collect(Flatten(odataRows), stringify);
    var snow := Collect(Flatten(snowRows), stringify);
    var index := SnowIndex(snow.order);
    var matched := MatchedOf(odata.order, index);
    CollectDomain(Flatten(snowRows), stringify);
    EarlierNameNeverIndexed(snow.order, p, q);
    MatchedOfMembers(odata.order, index);
    assert snow.order[p] !in matched;
    OnlyFieldsAreUnmatched(snow, matched);
    assert Align(odataRows, snowRows, stringify).snowflakeOnly == OnlyOf(snow, snow.order, matched);
  }
}
