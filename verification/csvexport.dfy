/**
 * The CSV download of the line-download endpoint: a UTF-8 byte-order mark, a
 * header made of the first row's keys, and one `;`-separated line per row. A
 * field holding a `;`, a `"` or a line feed is quoted with its inner quotes
 * doubled, as items 6 and 7 of section 2 of RFC 4180 describe with `;` in the
 * place of the comma.
 */
module CsvExport {
  import opened Wrappers
  import opened JsString
  import opened JsValue

  const BOM: string := "\U{FEFF}"
  const CONTENT_TYPE: string := "text/csv; charset=utf-8"
  const CONTENT_DISPOSITION: string := "attachment; filename=\"download.csv\""

  // ---------------------------------------------------------------- writing

  /** The text of a cell before escaping: empty for null and undefined, `String(v)` otherwise. */
  function Rendered(v: Value): string {
    if Nullish(v) then "" else ToStr(v)
  }

  predicate NeedsQuotes(s: string) {
    ';' in s || '"' in s || '\n' in s
  }

  /** The escaping of one cell: quoted, with every inner quote doubled, when it holds a `;`, a `"` or
      a line feed; verbatim otherwise (a carriage return alone does not cause quoting). */
  function EscapeText(s: string): (r: string)
    ensures !NeedsQuotes(s) ==> r == s
    ensures NeedsQuotes(s) ==>
              |r| >= 2 && r[0] == '"' && r[|r| - 1] == '"' && UndoubleChar(r[1..|r| - 1], '"') == Some(s)
  {
    if NeedsQuotes(s) then
      UndoubleDouble(s, '"');
      var r := "\"" + DoubleChar(s, '"') + "\"";
      assert r[1..|r| - 1] == DoubleChar(s, '"');
      r
    else s
  }

  /** The cells of a row under the header columns: missing keys give empty cells, keys outside the
      header are not looked at. */
  function Cells(row: Record, columns: seq<string>): (cells: seq<string>)
    ensures |cells| == |columns|
    ensures forall i :: 0 <= i < |columns| && columns[i] !in Keys(row) ==> cells[i] == ""
  {
    seq(|columns|, i requires 0 <= i < |columns| => Rendered(Get(row, columns[i])))
  }

  function Escaped(fields: seq<string>): (r: seq<string>)
    ensures |r| == |fields|
  {
    seq(|fields|, i requires 0 <= i < |fields| => EscapeText(fields[i]))
  }

  /** One data line, without its line feed. */
  function Line(row: Record, columns: seq<string>): string {
    Join(Escaped(Cells(row, columns)), ";")
  }

  /** The chunks `streamCsvResponse` writes, in order. */
  function CsvChunks(rows: seq<Record>): seq<string> {
    if rows == [] then []
    else
      var columns := Keys(rows[0]);
      [BOM, Join(columns, ";") + "\n"] + seq(|rows|, i requires 0 <= i < |rows| => Line(rows[i], columns) + "\n")
  }

  function Concat(chunks: seq<string>): string {
    if chunks == [] then "" else chunks[0] + Concat(chunks[1..])
  }

  /** `streamCsvResponse(res, rows)`: the two response headers it sets and the chunks it writes. */
  method StreamCsvResponse(rows: seq<Record>) returns (headers: seq<(string, string)>, chunks: seq<string>)
    ensures headers == [("Content-Type", CONTENT_TYPE), ("Content-Disposition", CONTENT_DISPOSITION)]
    ensures chunks == CsvChunks(rows)
    ensures rows == [] <==> chunks == []
  {
    headers := [("Content-Type", CONTENT_TYPE), ("Content-Disposition", CONTENT_DISPOSITION)];
    if |rows| == 0 {
      return headers, [];
    }
    chunks := [BOM];
    var columns := Keys(rows[0]);
    chunks := chunks + [Join(columns, ";") + "\n"];
    var i := 0;
    while i < |rows|
      invariant 0 <= i <= |rows|
      invariant chunks == [BOM, Join(columns, ";") + "\n"] + seq(i, j requires 0 <= j < i => Line(rows[j], columns) + "\n")
    {
      var line := Line(rows[i], columns);
      chunks := chunks + [line + "\n"];
      i := i + 1;
    }
  }

  // ---------------------------------------------------------------- reading back

  /** The rest of a quoted field after its opening quote: the content up to the closing quote, where
      a doubled quote stands for one quote, and what follows; `None` when the quote is never closed. */
  function ParseQuoted(s: string): (r: Option<(string, string)>)
    ensures r.Some? ==> |r.value.1| < |s|
    decreases |s|
  {
    if s == [] then None
    else if s[0] == '"' then
      if |s| >= 2 && s[1] == '"' then
        match ParseQuoted(s[2..])
        case Some(p) => Some(("\"" + p.0, p.1))
        case None => None
      else Some(("", s[1..]))
    else
      match ParseQuoted(s[1..])
      case Some(p) => Some(([s[0]] + p.0, p.1))
      case None => None
  }

  /** An unquoted field: everything up to the next `;` or line feed. */
  function ParsePlain(s: string): (r: (string, string))
    ensures |r.1| <= |s|
  {
    if s == [] || s[0] == ';' || s[0] == '\n' then ("", s)
    else
      var p := ParsePlain(s[1..]);
      ([s[0]] + p.0, p.1)
  }

  function ParseField(s: string): (r: Option<(string, string)>)
    ensures r.Some? ==> |r.value.1| <= |s|
  {
    if s != [] && s[0] == '"' then ParseQuoted(s[1..]) else Some(ParsePlain(s))
  }

  /** The fields of one record, up to the line feed or the end of the text that closes it. */
  function ParseRecord(s: string): (r: Option<(seq<string>, string)>)
    ensures r.Some? ==> |r.value.1| <= |s|
    decreases |s|
  {
    match ParseField(s)
    case None => None
    case Some(f) =>
      if f.1 != [] && f.1[0] == ';' then
        match ParseRecord(f.1[1..])
        case None => None
        case Some(rec) => Some(([f.0] + rec.0, rec.1))
      else Some(([f.0], f.1))
  }

  /** A text of records, each closed by a line feed. */
  function ParseRecords(s: string): Option<seq<seq<string>>>
    decreases |s|
  {
    if s == [] then Some([])
    else
      match ParseRecord(s)
      case None => None
      case Some(rec) =>
        if rec.1 != [] && rec.1[0] == '\n' then
          match ParseRecords(rec.1[1..])
          case None => None
          case Some(recs) => Some([rec.0] + recs)
        else None
  }

  // ---------------------------------------------------------------- round trip

  predicate EndsField(rest: string) {
    rest == [] || rest[0] == ';' || rest[0] == '\n'
  }

  lemma {:induction false} QuotedRoundTrip(x: string, rest: string)
    requires rest == [] || rest[0] != '"'
    ensures ParseQuoted(DoubleChar(x, '"') + ("\"" + rest)) == Some((x, rest))
  {
    var s := DoubleChar(x, '"') + ("\"" + rest);
    if x == [] {
      assert s == "\"" + rest;
      assert s[1..] == rest;
    } else {
      QuotedRoundTrip(x[1..], rest);
      var tail := DoubleChar(x[1..], '"') + ("\"" + rest);
      DoubleCharCons(x, '"', "\"" + rest);
      ParseQuotedStep(x[0], tail);
      assert [x[0]] + x[1..] == x;
    }
  }

  lemma DoubleCharCons(x: string, q: char, after: string)
    requires x != []
    ensures DoubleChar(x, q) + after == (if x[0] == q then [q, q] else [x[0]]) + (DoubleChar(x[1..], q) + after)
  {
  }

  /** One written character of a quoted body, then the rest of it. */
  lemma ParseQuotedStep(c: char, tail: string)
    ensures ParseQuoted((if c == '"' then "\"\"" else [c]) + tail) ==
            match ParseQuoted(tail)
            case Some(p) => Some(([c] + p.0, p.1))
            case None => None
  {
    if c == '"' {
      assert ("\"\"" + tail)[2..] == tail;
    } else {
      assert ([c] + tail)[1..] == tail;
    }
  }

  lemma {:induction false} PlainRoundTrip(x: string, rest: string)
    requires ';' !in x && '\n' !in x
    requires EndsField(rest)
    ensures ParsePlain(x + rest) == (x, rest)
  {
    if x == [] {
      assert x + rest == rest;
    } else {
      assert (x + rest)[1..] == x[1..] + rest;
      PlainRoundTrip(x[1..], rest);
      assert [x[0]] + x[1..] == x;
    }
  }

  /** Reading an escaped cell gives the cell back and stops right after it. */
  lemma FieldRoundTrip(x: string, rest: string)
    requires EndsField(rest)
    ensures ParseField(EscapeText(x) + rest) == Some((x, rest))
  {
    if NeedsQuotes(x) {
      var inner := DoubleChar(x, '"') + ("\"" + rest);
      assert EscapeText(x) + rest == "\"" + inner;
      assert ("\"" + inner)[1..] == inner;
      QuotedRoundTrip(x, rest);
    } else {
      assert EscapeText(x) == x;
      PlainRoundTrip(x, rest);
      if x != [] {
        assert (x + rest)[0] == x[0];
      }
    }
  }

  /** Reading a line of escaped cells gives the cells back: as many as were written, in order. */
  lemma {:induction false} RecordRoundTrip(fields: seq<string>, rest: string)
    requires |fields| >= 1
    requires rest == [] || rest[0] == '\n'
    ensures ParseRecord(Join(Escaped(fields), ";") + rest) == Some((fields, rest))
  {
    if |fields| == 1 {
      assert Join(Escaped(fields), ";") == EscapeText(fields[0]);
      FieldRoundTrip(fields[0], rest);
      assert [fields[0]] == fields;
    } else {
      var tail := Join(Escaped(fields[1..]), ";") + rest;
      JoinEscapedCons(fields, rest);
      FieldRoundTrip(fields[0], ";" + tail);
      RecordRoundTrip(fields[1..], rest);
      ParseRecordStep(EscapeText(fields[0]) + (";" + tail), fields[0], tail);
      assert [fields[0]] + fields[1..] == fields;
    }
  }

  /** A line of two or more escaped cells is the first cell, a `;` and the others. */
  lemma JoinEscapedCons(fields: seq<string>, rest: string)
    requires |fields| >= 2
    ensures Join(Escaped(fields), ";") + rest == EscapeText(fields[0]) + (";" + (Join(Escaped(fields[1..]), ";") + rest))
  {
    var parts := Escaped(fields);
    assert parts[1..] == Escaped(fields[1..]);
  }

  /** A field followed by `;` continues the record with the fields after it. */
  lemma ParseRecordStep(s: string, f: string, t: string)
    requires ParseField(s) == Some((f, ";" + t))
    ensures ParseRecord(t).Some? ==> ParseRecord(s) == Some(([f] + ParseRecord(t).value.0, ParseRecord(t).value.1))
  {
    assert (";" + t)[1..] == t;
  }

  /** Records written one per line, each closed by a line feed. */
  function RecordsText(records: seq<seq<string>>): string {
    if records == [] then "" else Join(Escaped(records[0]), ";") + "\n" + RecordsText(records[1..])
  }

  /** Records written one per line read back as the same records. */
  lemma {:induction false} RecordsRoundTrip(records: seq<seq<string>>)
    requires forall i :: 0 <= i < |records| ==> |records[i]| >= 1
    ensures ParseRecords(RecordsText(records)) == Some(records)
  {
    if records != [] {
      var rest := RecordsText(records[1..]);
      RecordsRoundTrip(records[1..]);
      var line := Join(Escaped(records[0]), ";");
      assert RecordsText(records) == line + ("\n" + rest);
      RecordRoundTrip(records[0], "\n" + rest);
      assert ("\n" + rest)[1..] == rest;
      assert [records[0]] + records[1..] == records;
    }
  }

  /** Lines each made of a record's escaped cells and a line feed are the records text. */
  lemma {:induction false} LinesText(lines: seq<string>, records: seq<seq<string>>)
    requires |lines| == |records|
    requires forall i :: 0 <= i < |lines| ==> lines[i] == Join(Escaped(records[i]), ";") + "\n"
    ensures Concat(lines) == RecordsText(records)
  {
    if lines != [] {
      LinesText(lines[1..], records[1..]);
    }
  }

  /** The data lines `CsvChunks` writes are the records text of the rows' cells. */
  lemma DataLinesText(rows: seq<Record>, columns: seq<string>)
    ensures Concat(seq(|rows|, i requires 0 <= i < |rows| => Line(rows[i], columns) + "\n")) ==
            RecordsText(seq(|rows|, i requires 0 <= i < |rows| => Cells(rows[i], columns)))
  {
    LinesText(seq(|rows|, i requires 0 <= i < |rows| => Line(rows[i], columns) + "\n"),
              seq(|rows|, i requires 0 <= i < |rows| => Cells(rows[i], columns)));
  }

  /** The whole download: after the byte-order mark, the text reads back, per RFC 4180 with `;`, as
      the header columns followed by each row's cells under those columns (provided the column names
      themselves need no quoting, since the header is written unescaped). */
  lemma CsvRoundTrip(rows: seq<Record>)
    requires rows != [] && |Keys(rows[0])| >= 1
    requires forall i :: 0 <= i < |Keys(rows[0])| ==> !NeedsQuotes(Keys(rows[0])[i])
    ensures var text := Concat(CsvChunks(rows));
            && |text| >= 1 && text[..1] == BOM
            && ParseRecords(text[1..]) ==
               Some([Keys(rows[0])] + seq(|rows|, i requires 0 <= i < |rows| => Cells(rows[i], Keys(rows[0]))))
  {
    var records := [Keys(rows[0])] + seq(|rows|, i requires 0 <= i < |rows| => Cells(rows[i], Keys(rows[0])));
    CsvChunksText(rows);
    RecordsRoundTrip(records);
    assert (BOM + RecordsText(records))[1..] == RecordsText(records);
  }

  /** With column names that need no quoting, the download is the byte-order mark
      followed by the records text of the header and the rows' cells. */
  lemma CsvChunksText(rows: seq<Record>)
    requires rows != [] && |Keys(rows[0])| >= 1
    requires forall i :: 0 <= i < |Keys(rows[0])| ==> !NeedsQuotes(Keys(rows[0])[i])
    ensures Concat(CsvChunks(rows)) ==
            BOM + RecordsText([Keys(rows[0])] + seq(|rows|, i requires 0 <= i < |rows| => Cells(rows[i], Keys(rows[0]))))
  {
    var columns := Keys(rows[0]);
    var cells := seq(|rows|, i requires 0 <= i < |rows| => Cells(rows[i], columns));
    var lines := seq(|rows|, i requires 0 <= i < |rows| => Line(rows[i], columns) + "\n");
    var records := [columns] + cells;
    assert Escaped(columns) == columns;
    var chunks := CsvChunks(rows);
    assert chunks[1..][1..] == lines;
    DataLinesText(rows, columns);
    assert Concat(chunks) == BOM + (Join(columns, ";") + "\n" + Concat(lines));
    assert records[1..] == cells;
  }

  /** An empty result set gives an empty body: no byte-order mark and no header. */
  lemma EmptyRowsEmptyBody(rows: seq<Record>)
    ensures rows == [] <==> Concat(CsvChunks(rows)) == ""
  {
    if rows != [] {
      assert CsvChunks(rows)[1..][1..] == CsvChunks(rows)[2..];
      assert Concat(CsvChunks(rows)) == BOM + Concat(CsvChunks(rows)[1..]);
    }
  }
}
