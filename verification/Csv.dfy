/**
  The printed campaign report (src/modules/analytics/services/analytics.service.ts:124-137) against a
  reader for section 2 of RFC 4180: fields are split at commas and line breaks, a quoted field may hold
  both, and a doubled quote stands for one. The reader is an automaton fed one character at a time; any
  character besides quote, comma, carriage return and line feed counts as text.
 */
module Csv {
  import opened Outcomes

  /** A number arrives as its decimal text and is never taken for a formula. */
  datatype Cell = Text(text: string) | Number(text: string)

  const CRLF := "\r\n"

  // Printing.

  predicate StartsFormula(text: string)
  {
    text != "" && text[0] in {'=', '+', '-', '@'}
  }

  function Neutralised(cell: Cell): string
  {
    if cell.Text? && StartsFormula(cell.text) then "'" + cell.text else cell.text
  }

  predicate NeedsQuotes(text: string)
  {
    exists i :: 0 <= i < |text| && text[i] in {'"', ',', '\r', '\n'}
  }

  function DoubleQuotes(text: string): string
  {
    if text == "" then ""
    else DoubleQuotes(text[..|text| - 1]) + (if text[|text| - 1] == '"' then "\"\"" else [text[|text| - 1]])
  }

  function CsvCell(cell: Cell): string
  {
    var text := Neutralised(cell);
    if NeedsQuotes(text) then "\"" + DoubleQuotes(text) + "\"" else text
  }

  function Join(parts: seq<string>, separator: string): string
  {
    if parts == [] then ""
    else if |parts| == 1 then parts[0]
    else Join(parts[..|parts| - 1], separator) + separator + parts[|parts| - 1]
  }

  function Map<A, B>(f: A -> B, items: seq<A>): (mapped: seq<B>)
    ensures |mapped| == |items|
    ensures forall i :: 0 <= i < |items| ==> mapped[i] == f(items[i])
  {
    if items == [] then [] else Map(f, items[..|items| - 1]) + [f(items[|items| - 1])]
  }

  function CsvRow(row: seq<Cell>): string
  {
    Join(Map(CsvCell, row), ",")
  }

  function Print(rows: seq<seq<Cell>>): string
  {
    Join(Map(CsvRow, rows), CRLF) + CRLF
  }

  // Reading.

  /** Where the reader stands in a field. */
  datatype Mode = AtStart | InText | InQuotes | AfterQuote | AfterReturn | Malformed

  datatype Reader = Reader(rows: seq<seq<string>>, row: seq<string>, field: string, mode: Mode)

  const FreshReader := Reader([], [], "", AtStart)

  function Broken(reader: Reader): Reader
  {
    reader.(mode := Malformed)
  }

  function EndField(reader: Reader): Reader
  {
    Reader(reader.rows, reader.row + [reader.field], "", AtStart)
  }

  function EndRow(reader: Reader): Reader
  {
    Reader(reader.rows + [reader.row + [reader.field]], [], "", AtStart)
  }

  function Unquoted(reader: Reader, c: char): Reader
  {
    if c == ',' then EndField(reader)
    else if c == '\r' then reader.(mode := AfterReturn)
    else if c == '\n' || c == '"' then Broken(reader)
    else reader.(field := reader.field + [c], mode := InText)
  }

  function Take(reader: Reader, c: char): Reader
  {
    match reader.mode
    case AtStart => if c == '"' then reader.(mode := InQuotes) else Unquoted(reader, c)
    case InText => Unquoted(reader, c)
    case InQuotes => if c == '"' then reader.(mode := AfterQuote) else reader.(field := reader.field + [c])
    case AfterQuote =>
      if c == '"' then reader.(field := reader.field + [c], mode := InQuotes)
      else if c == ',' then EndField(reader)
      else if c == '\r' then reader.(mode := AfterReturn)
      else Broken(reader)
    case AfterReturn => if c == '\n' then EndRow(reader) else Broken(reader)
    case Malformed => reader
  }

  function Feed(reader: Reader, text: string): Reader
  {
    if text == "" then reader else Take(Feed(reader, text[..|text| - 1]), text[|text| - 1])
  }

  /** The last record may lack its line break. */
  function Read(text: string): Option<seq<seq<string>>>
  {
    var end := Feed(FreshReader, text);
    match end.mode
    case AtStart => if end.row == [] then Some(end.rows) else Some(EndRow(end).rows)
    case InText => Some(EndRow(end).rows)
    case AfterQuote => Some(EndRow(end).rows)
    case _ => None
  }

  // What comes back.

  function ReadBackRow(row: seq<Cell>): seq<string>
  {
    if row == [] then [""] else Map(Neutralised, row)
  }

  function ReadBack(rows: seq<seq<Cell>>): seq<seq<string>>
  {
    if rows == [] then [[""]] else Map(ReadBackRow, rows)
  }

  lemma {:induction false} FeedConcat(reader: Reader, first: string, second: string)
    ensures Feed(reader, first + second) == Feed(Feed(reader, first), second)
  {
    if second == "" {
      assert first + second == first;
    } else {
      var n := |second| - 1;
      FeedConcat(reader, first, second[..n]);
      assert (first + second)[..|first + second| - 1] == first + second[..n];
    }
  }

  lemma FeedOne(reader: Reader, c: char)
    ensures Feed(reader, [c]) == Take(reader, c)
  {
    assert [c][..0] == "";
  }

  lemma FeedTwo(reader: Reader, text: string)
    requires |text| == 2
    ensures Feed(reader, text) == Take(Take(reader, text[0]), text[1])
  {
    FeedConcat(reader, [text[0]], [text[1]]);
    FeedOne(reader, text[0]);
    FeedOne(Feed(reader, [text[0]]), text[1]);
    assert text == [text[0]] + [text[1]];
  }

  /** Inside quotes, the doubled text reads as the text. */
  lemma {:induction false} QuotedReads(reader: Reader, text: string)
    requires reader.mode == InQuotes
    ensures Feed(reader, DoubleQuotes(text)) == reader.(field := reader.field + text)
  {
    if text == "" {
      assert reader.field + text == reader.field;
    } else {
      var n := |text| - 1;
      var last := if text[n] == '"' then "\"\"" else [text[n]];
      QuotedReads(reader, text[..n]);
      FeedConcat(reader, DoubleQuotes(text[..n]), last);
      if text[n] == '"' {
        FeedTwo(Feed(reader, DoubleQuotes(text[..n])), last);
      } else {
        FeedOne(Feed(reader, DoubleQuotes(text[..n])), text[n]);
      }
      assert reader.field + text == (reader.field + text[..n]) + [text[n]];
    }
  }

  lemma {:induction false} BareReads(reader: Reader, text: string)
    requires reader.mode == AtStart && reader.field == "" && !NeedsQuotes(text)
    ensures Feed(reader, text) == if text == "" then reader else reader.(field := text, mode := InText)
  {
    if text != "" {
      var n := |text| - 1;
      assert text[n] !in {'"', ',', '\r', '\n'};
      forall i | 0 <= i < n ensures text[..n][i] !in {'"', ',', '\r', '\n'} {
        assert text[i] !in {'"', ',', '\r', '\n'};
      }
      BareReads(reader, text[..n]);
      assert text[..n] + [text[n]] == text;
    }
  }

  /** At the end of a field that holds this text. */
  predicate Holds(reader: Reader, rows: seq<seq<string>>, row: seq<string>, field: string)
  {
    && reader.rows == rows && reader.row == row && reader.field == field
    && (reader.mode == InText || reader.mode == AfterQuote || (reader.mode == AtStart && field == ""))
  }

  lemma QuotedCellReads(reader: Reader, text: string)
    requires reader.mode == AtStart && reader.field == ""
    ensures Feed(reader, "\"" + DoubleQuotes(text) + "\"") == reader.(field := text, mode := AfterQuote)
  {
    var inside := reader.(mode := InQuotes);
    FeedConcat(reader, "\"" + DoubleQuotes(text), "\"");
    FeedConcat(reader, "\"", DoubleQuotes(text));
    FeedOne(reader, '"');
    QuotedReads(inside, text);
    FeedOne(inside.(field := text), '"');
    assert "" + text == text;
  }

  /** A printed cell reads as the neutralised cell. */
  lemma CellReads(reader: Reader, cell: Cell)
    requires reader.mode == AtStart && reader.field == ""
    ensures Holds(Feed(reader, CsvCell(cell)), reader.rows, reader.row, Neutralised(cell))
  {
    if NeedsQuotes(Neutralised(cell)) {
      QuotedCellReads(reader, Neutralised(cell));
    } else {
      BareReads(reader, Neutralised(cell));
    }
  }

  lemma RowSplits(row: seq<Cell>)
    requires 1 < |row|
    ensures
      var n := |row| - 1;
      && CsvRow(row) == CsvRow(row[..n]) + "," + CsvCell(row[n])
      && ReadBackRow(row) == ReadBackRow(row[..n]) + [Neutralised(row[n])]
  {
    var n := |row| - 1;
    assert Map(CsvCell, row)[..n] == Map(CsvCell, row[..n]);
  }

  lemma TakeComma(reader: Reader, rows: seq<seq<string>>, row: seq<string>, field: string)
    requires Holds(reader, rows, row, field)
    ensures Take(reader, ',') == Reader(rows, row + [field], "", AtStart)
  {
  }

  lemma CommaReads(reader: Reader, before: string, row: seq<string>, field: string)
    requires Holds(Feed(reader, before), reader.rows, row, field)
    ensures Feed(reader, before + ",") == Reader(reader.rows, row + [field], "", AtStart)
  {
    FeedConcat(reader, before, ",");
    FeedOne(Feed(reader, before), ',');
    TakeComma(Feed(reader, before), reader.rows, row, field);
  }

  /** A comma and one more cell. */
  lemma NextCellReads(reader: Reader, before: string, row: seq<string>, field: string, cell: Cell)
    requires Holds(Feed(reader, before), reader.rows, row, field)
    ensures Holds(Feed(reader, before + "," + CsvCell(cell)), reader.rows, row + [field], Neutralised(cell))
  {
    CommaReads(reader, before, row, field);
    FeedConcat(reader, before + ",", CsvCell(cell));
    CellReads(Reader(reader.rows, row + [field], "", AtStart), cell);
  }

  lemma {:induction false} RowReads(reader: Reader, row: seq<Cell>)
    requires reader.mode == AtStart && reader.field == "" && reader.row == []
    ensures
      var back := ReadBackRow(row);
      Holds(Feed(reader, CsvRow(row)), reader.rows, back[..|back| - 1], back[|back| - 1])
    decreases |row|
  {
    if row == [] {
      assert CsvRow(row) == "";
    } else if |row| == 1 {
      CellReads(reader, row[0]);
    } else {
      var n := |row| - 1;
      var back := ReadBackRow(row[..n]);
      RowReads(reader, row[..n]);
      NextCellReads(reader, CsvRow(row[..n]), back[..n - 1], back[n - 1], row[n]);
      RowSplits(row);
      assert back == back[..n - 1] + [back[n - 1]];
    }
  }

  /** A printed row and its line break read as one record. */
  lemma LineReads(reader: Reader, row: seq<Cell>)
    requires reader.mode == AtStart && reader.field == "" && reader.row == []
    ensures Feed(reader, CsvRow(row) + CRLF) == Reader(reader.rows + [ReadBackRow(row)], [], "", AtStart)
  {
    var back := ReadBackRow(row);
    RowReads(reader, row);
    FeedConcat(reader, CsvRow(row), CRLF);
    FeedTwo(Feed(reader, CsvRow(row)), CRLF);
    assert back == back[..|back| - 1] + [back[|back| - 1]];
  }

  lemma RowsSplit(rows: seq<seq<Cell>>)
    requires 1 < |rows|
    ensures
      var n := |rows| - 1;
      && Print(rows) == Print(rows[..n]) + (CsvRow(rows[n]) + CRLF)
      && ReadBack(rows) == ReadBack(rows[..n]) + [ReadBackRow(rows[n])]
  {
    var n := |rows| - 1;
    assert Map(CsvRow, rows)[..n] == Map(CsvRow, rows[..n]);
    assert Map(CsvRow, rows)[n] == CsvRow(rows[n]);
  }

  lemma {:induction false} PrintReads(rows: seq<seq<Cell>>)
    ensures Feed(FreshReader, Print(rows)) == Reader(ReadBack(rows), [], "", AtStart)
    decreases |rows|
  {
    if rows == [] {
      FeedTwo(FreshReader, CRLF);
      assert FreshReader.row + [""] == [""];
      assert FreshReader.rows + [[""]] == ReadBack(rows);
    } else if |rows| == 1 {
      LineReads(FreshReader, rows[0]);
      assert FreshReader.rows + [ReadBackRow(rows[0])] == ReadBack(rows);
    } else {
      var n := |rows| - 1;
      PrintReads(rows[..n]);
      RowsSplit(rows);
      FeedConcat(FreshReader, Print(rows[..n]), CsvRow(rows[n]) + CRLF);
      LineReads(Feed(FreshReader, Print(rows[..n])), rows[n]);
    }
  }

  /** Whatever the cells hold, a reader gets the neutralised cells back; an empty row becomes one empty field. */
  lemma RoundTrip(rows: seq<seq<Cell>>)
    ensures Read(Print(rows)) == Some(ReadBack(rows))
  {
    PrintReads(rows);
  }

  /** So no text field of the read report opens a spreadsheet formula. */
  lemma NoTextOpensAFormula(rows: seq<seq<Cell>>, i: nat, j: nat)
    requires i < |rows| && j < |rows[i]| && rows[i][j].Text?
    ensures
      var read := Read(Print(rows));
      read.Some? && i < |read.value| && j < |read.value[i]| && !StartsFormula(read.value[i][j])
  {
    RoundTrip(rows);
  }

  /** Reports with the same text came from the same fields. */
  lemma PrintIsInjective(first: seq<seq<Cell>>, second: seq<seq<Cell>>)
    requires Print(first) == Print(second)
    ensures ReadBack(first) == ReadBack(second)
  {
    RoundTrip(first);
    RoundTrip(second);
  }

  /** A text a spreadsheet would take for a formula. */
  predicate OpensFormula(cell: Cell)
  {
    && cell.Text? && cell.text != ""
    && (cell.text[0] == '=' || cell.text[0] == '+' || cell.text[0] == '-' || cell.text[0] == '@')
  }

  /**
    The reader finds as many rows and fields as were printed, and in each field the cell's own text, with an
    apostrophe in front of a text that opens with one of four characters, and of no other.
   */
  lemma FieldsReadBack(rows: seq<seq<Cell>>, i: nat, j: nat)
    requires i < |rows| && j < |rows[i]|
    ensures
      var read := Read(Print(rows));
      && read.Some? && |read.value| == |rows| && |read.value[i]| == |rows[i]|
      && read.value[i][j] == if OpensFormula(rows[i][j]) then "'" + rows[i][j].text else rows[i][j].text
  {
    RoundTrip(rows);
  }

  /** Where a report says something of its own: a number or a text that needs no apostrophe and has none. */
  predicate Plain(cell: Cell)
  {
    cell.text != "" && cell.text[0] != '\'' && !OpensFormula(cell)
  }

  /** A field that is not empty was printed from a cell. */
  lemma FieldHasCell(rows: seq<seq<Cell>>, i: nat, j: nat)
    requires i < |ReadBack(rows)| && j < |ReadBack(rows)[i]| && ReadBack(rows)[i][j] != ""
    ensures i < |rows| && j < |rows[i]| && ReadBack(rows)[i][j] == Neutralised(rows[i][j])
  {
  }

  /** Reports with the same text have the same numbers and the same plain texts in the same places. */
  lemma SameReportSameCells(first: seq<seq<Cell>>, second: seq<seq<Cell>>, i: nat, j: nat)
    requires Print(first) == Print(second)
    requires i < |first| && j < |first[i]| && Plain(first[i][j])
    ensures i < |second| && j < |second[i]| && second[i][j].text == first[i][j].text
  {
    PrintIsInjective(first, second);
    FieldHasCell(second, i, j);
  }
}
