/**
 * `jsonToCsv`: the aggregate as semicolon-separated text with a byte-order
 * mark, a header of the row's keys, one line per row, and the quoting rules
 * of section 2, items 6 and 7, of RFC 4180 (with ';' as the delimiter). A
 * reader for that format is defined alongside and the encoder is proved to
 * round-trip through it.
 */
module CsvExport {
  import opened Wrappers
  import opened Text
  import opened JsonValues
  import opened RecordFetcher

  const Delimiter: char := ';'
  const Bom: char := '\U{FEFF}'

  /** `Object.keys` of a merged row, in the order the worker builds it. */
  const Header: seq<string> := ["orgNr", "namn", "form", "postort", "ombud", "tillagd"]

  /** A cell's text: `null` becomes empty, anything else goes through `String`. */
  function CellText(v: Json): string
  {
    if v.JNull? then "" else JsString(v)
  }

  /** The cells of a row, in header order. */
  function RowCells(row: Row): (cells: seq<string>)
    ensures |cells| == |Header|
  {
    [CellText(row.orgNr), CellText(row.namn), CellText(row.form),
     CellText(row.postort), CellText(row.ombud), CellText(row.tillagd)]
  }

  /** A cell must be quoted when it holds the delimiter, a quote or a newline. */
  predicate NeedsQuoting(cell: string)
  {
    Delimiter in cell || '"' in cell || '\n' in cell
  }

  /** `cell.replace(/"/g, '""')`. */
  function DoubleQuotes(cell: string): (r: string)
    ensures |r| >= |cell|
  {
    if cell == [] then []
    else if cell[0] == '"' then "\"\"" + DoubleQuotes(cell[1..])
    else [cell[0]] + DoubleQuotes(cell[1..])
  }

  /** Doubling changes exactly the cells that hold a quote: those without one are kept, the others grow. */
  lemma {:induction false} DoubleQuotesChanges(cell: string)
    ensures '"' !in cell ==> DoubleQuotes(cell) == cell
    ensures '"' in cell ==> |DoubleQuotes(cell)| > |cell|
  {
    if cell != [] {
      DoubleQuotesChanges(cell[1..]);
      assert cell == [cell[0]] + cell[1..];
      assert '"' in cell && cell[0] != '"' ==> '"' in cell[1..];
    }
  }

  /** A cell as written: quoted, with inner quotes doubled, exactly when it needs quoting. */
  function EscapeCell(cell: string): (r: string)
    ensures NeedsQuoting(cell) ==> |r| >= 2 && r[0] == '"' && r[|r| - 1] == '"'
    ensures !NeedsQuoting(cell) ==> r == cell
  {
    if NeedsQuoting(cell) then "\"" + DoubleQuotes(cell) + "\"" else cell
  }

  /** One line: the escaped cells joined by the delimiter. */
  function EncodeRecord(cells: seq<string>): string
  {
    JoinWith(seq(|cells|, i requires 0 <= i < |cells| => EscapeCell(cells[i])), [Delimiter])
  }

  /** The lines of several records. */
  function EncodeLines(records: seq<seq<string>>): seq<string>
  {
    seq(|records|, i requires 0 <= i < |records| => EncodeRecord(records[i]))
  }

  /** The encoded rows of the aggregate, one line each. */
  function RowLines(rows: seq<Row>): seq<string>
  {
    seq(|rows|, i requires 0 <= i < |rows| => EncodeRecord(RowCells(rows[i])))
  }

  /**
   * `jsonToCsv`: empty input gives the empty text; otherwise the mark, the
   * header line (the keys are written as they are), a newline, and the rows'
   * lines separated by newlines.
   */
  function JsonToCsv(rows: seq<Row>): (csv: string)
    ensures rows == [] <==> csv == ""
    ensures rows != [] ==> csv[0] == Bom
  {
    if |rows| == 0 then ""
    else [Bom] + JoinWith(Header, [Delimiter]) + "\n" + JoinWith(RowLines(rows), "\n")
  }

  // A reader for the format: fields, records and the whole document.

  /** An unquoted field: everything up to the next delimiter, newline or the end. */
  function ParseUnquoted(s: string): (r: (string, string))
    ensures r.0 + r.1 == s
    ensures Delimiter !in r.0 && '\n' !in r.0
    ensures r.1 == [] || r.1[0] == Delimiter || r.1[0] == '\n'
  {
    if s == [] || s[0] == Delimiter || s[0] == '\n' then ([], s)
    else
      var (field, rest) := ParseUnquoted(s[1..]);
      ([s[0]] + field, rest)
  }

  /** The body of a quoted field, after its opening quote: `""` stands for one quote, `"` closes it. */
  function ParseQuoted(s: string): (r: Option<(string, string)>)
    ensures r.Some? ==> |r.value.1| < |s|
  {
    if s == [] then None
    else if s[0] == '"' then
      if |s| >= 2 && s[1] == '"' then
        match ParseQuoted(s[2..])
        case None => None
        case Some((field, rest)) => Some(("\"" + field, rest))
      else Some(([], s[1..]))
    else
      match ParseQuoted(s[1..])
      case None => None
      case Some((field, rest)) => Some(([s[0]] + field, rest))
  }

  /** One field, quoted or not. */
  function ParseField(s: string): (r: Option<(string, string)>)
    ensures r.Some? ==> |r.value.1| <= |s|
  {
    if s != [] && s[0] == '"' then ParseQuoted(s[1..]) else Some(ParseUnquoted(s))
  }

  /** One record: fields separated by the delimiter, up to a newline or the end. */
  function ParseRecord(s: string): (r: Option<(seq<string>, string)>)
    ensures r.Some? ==> |r.value.1| <= |s|
    ensures r.Some? ==> r.value.1 == [] || r.value.1[0] == '\n'
    decreases |s|
  {
    match ParseField(s)
    case None => None
    case Some((field, rest)) =>
      if rest == [] || rest[0] == '\n' then Some(([field], rest))
      else if rest[0] == Delimiter then
        match ParseRecord(rest[1..])
        case None => None
        case Some((fields, tail)) => Some(([field] + fields, tail))
      else None
  }

  /** Records separated by newlines. */
  function ParseRecords(s: string): (r: Option<seq<seq<string>>>)
    decreases |s|
  {
    match ParseRecord(s)
    case None => None
    case Some((record, rest)) =>
      if rest == [] then Some([record])
      else
        match ParseRecords(rest[1..])
        case None => None
        case Some(records) => Some([record] + records)
  }

  /** A document: an optional byte-order mark, then records. */
  function ParseCsv(text: string): Option<seq<seq<string>>>
  {
    if text != [] && text[0] == Bom then ParseRecords(text[1..]) else ParseRecords(text)
  }

  // Round trip.

  lemma {:induction false} UnquotedRoundTrip(cell: string, tail: string)
    requires Delimiter !in cell && '\n' !in cell
    requires tail == [] || tail[0] == Delimiter || tail[0] == '\n'
    ensures ParseUnquoted(cell + tail) == (cell, tail)
  {
    if cell == [] {
      assert cell + tail == tail;
    } else {
      assert (cell + tail)[0] == cell[0] && cell[0] in cell;
      assert (cell + tail)[1..] == cell[1..] + tail;
      UnquotedRoundTrip(cell[1..], tail);
      assert cell == [cell[0]] + cell[1..];
    }
  }

  lemma {:induction false} QuotedRoundTrip(cell: string, tail: string)
    requires tail == [] || tail[0] != '"'
    ensures ParseQuoted(DoubleQuotes(cell) + "\"" + tail) == Some((cell, tail))
  {
    var s := DoubleQuotes(cell) + "\"" + tail;
    if cell == [] {
      assert s == "\"" + tail;
      assert s[1..] == tail;
    } else if cell[0] == '"' {
      assert s == "\"\"" + (DoubleQuotes(cell[1..]) + "\"" + tail);
      assert s[2..] == DoubleQuotes(cell[1..]) + "\"" + tail;
      QuotedRoundTrip(cell[1..], tail);
      assert cell == "\"" + cell[1..];
    } else {
      assert s == [cell[0]] + (DoubleQuotes(cell[1..]) + "\"" + tail);
      assert s[1..] == DoubleQuotes(cell[1..]) + "\"" + tail;
      QuotedRoundTrip(cell[1..], tail);
      assert cell == [cell[0]] + cell[1..];
    }
  }

  /**
   * Reading an escaped cell back gives the cell: stripping the outer quotes
   * and collapsing doubled quotes recovers the original text.
   */
  lemma FieldRoundTrip(cell: string, tail: string)
    requires tail == [] || tail[0] == Delimiter || tail[0] == '\n'
    ensures ParseField(EscapeCell(cell) + tail) == Some((cell, tail))
  {
    if NeedsQuoting(cell) {
      var s := EscapeCell(cell) + tail;
      assert s == "\"" + (DoubleQuotes(cell) + "\"" + tail);
      assert s[1..] == DoubleQuotes(cell) + "\"" + tail;
      QuotedRoundTrip(cell, tail);
    } else {
      UnquotedRoundTrip(cell, tail);
      if cell == [] {
        assert cell + tail == tail;
      }
    }
  }

  /** A record of two or more cells is its first escaped cell, the delimiter, and the rest. */
  lemma EncodeRecordCons(cells: seq<string>)
    requires |cells| >= 2
    ensures EncodeRecord(cells) == EscapeCell(cells[0]) + [Delimiter] + EncodeRecord(cells[1..])
  {
    var escaped := seq(|cells|, i requires 0 <= i < |cells| => EscapeCell(cells[i]));
    assert escaped[1..] == seq(|cells[1..]|, i requires 0 <= i < |cells[1..]| => EscapeCell(cells[1..][i]));
  }

  /** A record's last field ends the record. */
  lemma ParseRecordLast(s: string, field: string, tail: string)
    requires ParseField(s) == Some((field, tail))
    requires tail == [] || tail[0] == '\n'
    ensures ParseRecord(s) == Some(([field], tail))
  {
  }

  /** A field followed by the delimiter is the first of the record's fields. */
  lemma ParseRecordNext(s: string, field: string, more: string)
    requires ParseField(s) == Some((field, [Delimiter] + more))
    requires ParseRecord(more).Some?
    ensures ParseRecord(s) == Some(([field] + ParseRecord(more).value.0, ParseRecord(more).value.1))
  {
    assert ([Delimiter] + more)[1..] == more;
  }

  lemma {:induction false} RecordRoundTrip(cells: seq<string>, tail: string)
    requires |cells| > 0
    requires tail == [] || tail[0] == '\n'
    ensures ParseRecord(EncodeRecord(cells) + tail) == Some((cells, tail))
  {
    var first := EscapeCell(cells[0]);
    if |cells| == 1 {
      assert EncodeRecord(cells) == first;
      FieldRoundTrip(cells[0], tail);
      ParseRecordLast(first + tail, cells[0], tail);
      assert cells == [cells[0]];
    } else {
      var rest := EncodeRecord(cells[1..]);
      var more := rest + tail;
      EncodeRecordCons(cells);
      assert EncodeRecord(cells) + tail == first + ([Delimiter] + more);
      FieldRoundTrip(cells[0], [Delimiter] + more);
      RecordRoundTrip(cells[1..], tail);
      ParseRecordNext(first + ([Delimiter] + more), cells[0], more);
      assert cells == [cells[0]] + cells[1..];
    }
  }

  /** One record followed by a newline and more records. */
  lemma ParseRecordsNext(s: string, record: seq<string>, rest: string, records: seq<seq<string>>)
    requires ParseRecord(s) == Some((record, rest))
    requires rest != [] && ParseRecords(rest[1..]) == Some(records)
    ensures ParseRecords(s) == Some([record] + records)
  {
  }

  /** A record in front of records that already read back reads back with them. */
  lemma RecordsStep(cells: seq<string>, records: seq<seq<string>>)
    requires |cells| > 0 && |records| > 0
    requires ParseRecords(JoinWith(EncodeLines(records), "\n")) == Some(records)
    ensures ParseRecords(JoinWith(EncodeLines([cells] + records), "\n")) == Some([cells] + records)
  {
    var lines := EncodeLines([cells] + records);
    var more := JoinWith(EncodeLines(records), "\n");
    assert lines[1..] == EncodeLines(records);
    JoinWithFirst(lines, "\n");
    RecordRoundTrip(cells, "\n" + more);
    assert ("\n" + more)[1..] == more;
    ParseRecordsNext(EncodeRecord(cells) + ("\n" + more), cells, "\n" + more, records);
  }

  lemma {:induction false} RecordsRoundTrip(records: seq<seq<string>>)
    requires |records| > 0
    requires forall i :: 0 <= i < |records| ==> |records[i]| > 0
    ensures ParseRecords(JoinWith(EncodeLines(records), "\n")) == Some(records)
  {
    if |records| == 1 {
      assert JoinWith(EncodeLines(records), "\n") == EncodeRecord(records[0]) + [];
      RecordRoundTrip(records[0], []);
      assert records == [records[0]];
    } else {
      RecordsRoundTrip(records[1..]);
      RecordsStep(records[0], records[1..]);
      assert records == [records[0]] + records[1..];
    }
  }

  /** The header names need no quoting, so the header line is the encoded header record. */
  lemma HeaderLine()
    ensures EncodeRecord(Header) == JoinWith(Header, [Delimiter])
  {
    var escaped := seq(|Header|, i requires 0 <= i < |Header| => EscapeCell(Header[i]));
    forall i | 0 <= i < |Header|
      ensures escaped[i] == Header[i]
    {
      assert !NeedsQuoting(Header[i]);
    }
    assert escaped == Header;
  }

  /** The rows of an aggregate together with the header, as the records the export writes. */
  function ExportRecords(rows: seq<Row>): seq<seq<string>>
  {
    [Header] + seq(|rows|, i requires 0 <= i < |rows| => RowCells(rows[i]))
  }

  /** A non-empty export is the byte-order mark followed by its records' lines. */
  lemma ExportLines(rows: seq<Row>)
    requires rows != []
    ensures JsonToCsv(rows) == [Bom] + JoinWith(EncodeLines(ExportRecords(rows)), "\n")
  {
    var records := ExportRecords(rows);
    var lines := EncodeLines(records);
    HeaderLine();
    assert lines[0] == JoinWith(Header, [Delimiter]);
    assert lines[1..] == RowLines(rows) by {
      forall i | 0 <= i < |rows|
        ensures lines[1..][i] == RowLines(rows)[i]
      {
        assert records[i + 1] == RowCells(rows[i]);
      }
    }
    assert |lines| >= 2;
    assert JoinWith(lines, "\n") == lines[0] + "\n" + JoinWith(lines[1..], "\n");
  }

  /** Every record of an export has one cell per header name. */
  lemma ExportRecordsWidth(rows: seq<Row>)
    ensures forall i :: 0 <= i < |ExportRecords(rows)| ==> |ExportRecords(rows)[i]| == |Header|
  {
  }

  /**
   * The export round-trips: reading the exported text gives the header
   * followed by every row's cell texts, in aggregate order.
   */
  lemma CsvRoundTrip(rows: seq<Row>)
    requires rows != []
    ensures ParseCsv(JsonToCsv(rows)) == Some([Header] + seq(|rows|, i requires 0 <= i < |rows| => RowCells(rows[i])))
  {
    var records := ExportRecords(rows);
    var body := JoinWith(EncodeLines(records), "\n");
    ExportLines(rows);
    ExportRecordsWidth(rows);
    RecordsRoundTrip(records);
    assert ([Bom] + body)[1..] == body;
  }
}
