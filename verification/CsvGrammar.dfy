/** The reader against the grammar of section 2 of RFC 4180, with any line end: which texts it reads, what
    it makes of them, and which it refuses. */
module CsvGrammar {
  import opened CsvFormat

  /** A cell as somebody wrote it; quotes are free, and needed for some texts. */
  datatype Cell = Cell(text: string, quoted: bool) {
    predicate Valid() { quoted || !NeedsQuotes(text) }

    function Written(): string { if quoted then "\"" + Doubled(text) + "\"" else text }
  }

  datatype LineEnd = LF | CR | CRLF {
    function Text(): string { match this case LF => "\n" case CR => "\r" case CRLF => "\r\n" }
  }

  datatype WrittenRow = WrittenRow(cells: seq<Cell>, end: LineEnd)

  ghost predicate ValidCells(cells: seq<Cell>) { |cells| > 0 && forall i :: 0 <= i < |cells| ==> cells[i].Valid() }

  ghost predicate ValidRecords(records: seq<WrittenRow>) { forall i :: 0 <= i < |records| ==> ValidCells(records[i].cells) }

  function WrittenCells(cells: seq<Cell>): string {
    if |cells| == 0 then ""
    else if |cells| == 1 then cells[0].Written()
    else cells[0].Written() + "," + WrittenCells(cells[1..])
  }

  /** Rows with their ends, and a last one that runs to the end of the text; after a final line end it is the
      row of one empty cell. */
  function Document(records: seq<WrittenRow>, last: seq<Cell>): string {
    if |records| == 0 then WrittenCells(last)
    else WrittenCells(records[0].cells) + (records[0].end.Text() + Document(records[1..], last))
  }

  function Values(cells: seq<Cell>): Row {
    if |cells| == 0 then [] else [cells[0].text] + Values(cells[1..])
  }

  function AllValues(records: seq<WrittenRow>, last: seq<Cell>): seq<Row> {
    if |records| == 0 then [Values(last)] else [Values(records[0].cells)] + AllValues(records[1..], last)
  }

  /* ----- reading what the grammar writes ----- */

  lemma ReadWritten(cell: Cell, rest: string, st: State)
    requires AtCell(st) && cell.Valid() && EndsCell(rest)
    ensures Scan(cell.Written() + rest, st) == Scan(rest, st.(field := cell.text, closed := cell.quoted))
  {
    assert "" + cell.text == cell.text;
    if cell.quoted {
      assert (cell.Written() + rest)[1..] == Doubled(cell.text) + "\"" + rest;
      ReadQuoted(cell.text, rest, st.(quoted := true));
    } else {
      ReadPlain(cell.text, rest, st);
    }
  }

  /** Where a row begins. */
  predicate AtRow(st: State) { AtCell(st) && st.row == [] }

  lemma BlankLine(rest: string, st: State)
    requires AtRow(st)
    ensures Scan("\n" + rest, st) == Scan(rest, st)
  {
    assert ("\n" + rest)[1..] == rest;
    assert !NonBlank([""]);
  }

  /** Every line end closes the row, and a line feed after a carriage return opens no other. */
  lemma ReadLineEnd(end: LineEnd, rest: string, st: State)
    requires !st.quoted
    ensures Scan(end.Text() + rest, st) == Scan(rest, EndRow(st))
  {
    var text := end.Text() + rest;
    match end
    case LF => assert text[1..] == rest;
    case CRLF => assert text[2..] == rest;
    case CR =>
      assert text[1..] == rest;
      if |rest| > 0 && rest[0] == '\n' {
        assert text[2..] == rest[1..] && rest == "\n" + rest[1..];
        BlankLine(rest[1..], EndRow(st));
      }
  }

  /** Where the reader stands behind the cells of a row. */
  function Behind(cells: seq<Cell>, st: State): State
    requires |cells| > 0
  {
    if |cells| == 1 then st.(field := cells[0].text, closed := cells[0].quoted)
    else Behind(cells[1..], st.(row := st.row + [cells[0].text]))
  }

  lemma {:induction false} ReadCellList(cells: seq<Cell>, rest: string, st: State)
    requires AtCell(st) && ValidCells(cells) && EndsCell(rest)
    ensures Scan(WrittenCells(cells) + rest, st) == Scan(rest, Behind(cells, st))
  {
    if |cells| == 1 {
      ReadWritten(cells[0], rest, st);
    } else {
      var more := "," + (WrittenCells(cells[1..]) + rest);
      assert WrittenCells(cells) + rest == cells[0].Written() + more;
      ReadWritten(cells[0], more, st);
      assert more[1..] == WrittenCells(cells[1..]) + rest;
      ReadCellList(cells[1..], rest, st.(row := st.row + [cells[0].text]));
    }
  }

  lemma EmptyIsBlank()
    ensures !NonBlank([""])
  {
  }

  /** The row so far, kept if it has text. */
  function Kept(rows: seq<Row>, row: Row): seq<Row> { if NonBlank(row) then rows + [row] else rows }

  lemma {:induction false} BehindEnds(cells: seq<Cell>, st: State)
    requires AtCell(st) && |cells| > 0
    ensures var e := Behind(cells, st);
            && !e.quoted && EndRow(e) == State(Kept(st.rows, st.row + Values(cells)), [], "", false, false)
            && (st.row == [] ==> Finish(e) == Done(Kept(st.rows, Values(cells))))
    ensures |Behind(cells, st).row| == |st.row| + |cells| - 1
  {
    hide NonBlank;
    if |cells| == 1 {
      assert Values(cells) == [cells[0].text];
      EmptyIsBlank();
      assert st.row == [] ==> st.row + Values(cells) == Values(cells);
    } else {
      BehindEnds(cells[1..], st.(row := st.row + [cells[0].text]));
      assert st.row + [cells[0].text] + Values(cells[1..]) == st.row + Values(cells);
      assert [] + Values(cells) == Values(cells);
    }
  }

  lemma {:induction false} ReadDocument(records: seq<WrittenRow>, last: seq<Cell>, rows: seq<Row>)
    requires ValidRecords(records) && ValidCells(last)
    ensures Scan(Document(records, last), State(rows, [], "", false, false)) == Done(rows + KeepNonBlank(AllValues(records, last)))
  {
    hide Scan, KeepNonBlank, NonBlank, WrittenCells, Behind, EndRow, Finish;
    var st := State(rows, [], "", false, false);
    KeepFront(AllValues(records, last));
    if |records| == 0 {
      assert WrittenCells(last) + "" == WrittenCells(last);
      ReadCellList(last, "", st);
      BehindEnds(last, st);
      ScanNothing(Behind(last, st));
      KeptOne(rows, Values(last));
    } else {
      var cells, end := records[0].cells, records[0].end;
      var more := Document(records[1..], last);
      assert ValidCells(cells);
      ReadCellList(cells, end.Text() + more, st);
      BehindEnds(cells, st);
      ReadLineEnd(end, more, Behind(cells, st));
      assert [] + Values(cells) == Values(cells);
      var kept := Kept(rows, Values(cells));
      ReadDocument(records[1..], last, kept);
      assert kept + KeepNonBlank(AllValues(records[1..], last)) == rows + KeepNonBlank(AllValues(records, last));
    }
  }

  lemma ScanNothing(st: State)
    ensures Scan("", st) == Finish(st)
  {
  }

  lemma KeptOne(rows: seq<Row>, row: Row)
    ensures rows + KeepNonBlank([row]) == Kept(rows, row)
  {
    hide NonBlank;
    assert [row][..0] == [] && KeepNonBlank([]) == [];
  }

  /** Any file of the grammar, whoever wrote it: with any cells quoted, any mix of line ends, and the last one
      left out or not, reads as its rows that have text. */
  lemma GrammarReads(records: seq<WrittenRow>, last: seq<Cell>)
    requires ValidRecords(records) && ValidCells(last)
    ensures Parse(Document(records, last)) == Done(KeepNonBlank(AllValues(records, last)))
  {
    ReadDocument(records, last, []);
    assert [] + KeepNonBlank(AllValues(records, last)) == KeepNonBlank(AllValues(records, last));
  }

  /* ----- refusals ----- */

  /** Rows with their ends, and cells each with its comma: a text that has just come to a new cell. */
  function Opened(records: seq<WrittenRow>, cells: seq<Cell>): string {
    if |records| > 0 then WrittenCells(records[0].cells) + (records[0].end.Text() + Opened(records[1..], cells))
    else if |cells| > 0 then cells[0].Written() + ("," + Opened(records, cells[1..]))
    else ""
  }

  lemma {:induction false} ReadOpened(records: seq<WrittenRow>, cells: seq<Cell>, rest: string, st: State)
    requires ValidRecords(records) && (forall i :: 0 <= i < |cells| ==> cells[i].Valid()) && AtCell(st)
    ensures exists e :: AtCell(e) && Scan(Opened(records, cells) + rest, st) == Scan(rest, e)
    decreases |records| + |cells|
  {
    if |records| > 0 {
      var more := Opened(records[1..], cells) + rest;
      var row, end := records[0].cells, records[0].end;
      assert ValidCells(row);
      assert Opened(records, cells) + rest == WrittenCells(row) + (end.Text() + more);
      ReadCellList(row, end.Text() + more, st);
      BehindEnds(row, st);
      ReadLineEnd(end, more, Behind(row, st));
      ReadOpened(records[1..], cells, rest, EndRow(Behind(row, st)));
    } else if |cells| > 0 {
      var more := "," + (Opened(records, cells[1..]) + rest);
      assert Opened(records, cells) + rest == cells[0].Written() + more;
      ReadWritten(cells[0], more, st);
      assert more[1..] == Opened(records, cells[1..]) + rest;
      ReadOpened(records, cells[1..], rest, st.(row := st.row + [cells[0].text]));
    } else {
      assert Opened(records, cells) + rest == rest;
    }
  }

  /** After a closing quote nothing but a comma, a line end or the end of the text may follow. */
  lemma TextAfterQuoteRefused(records: seq<WrittenRow>, cells: seq<Cell>, t: string, c: char, rest: string)
    requires ValidRecords(records) && forall i :: 0 <= i < |cells| ==> cells[i].Valid()
    requires c !in {',', '\r', '\n', '"'}
    ensures Parse(Opened(records, cells) + (Cell(t, true).Written() + ([c] + rest))) == Refused(INVALID, 0)
  {
    hide Scan, Opened, Doubled, NeedsQuotes;
    var text := Cell(t, true).Written() + ([c] + rest);
    ReadOpened(records, cells, text, START);
    var e :| AtCell(e) && Scan(Opened(records, cells) + text, START) == Scan(text, e);
    AfterQuote(t, c, rest, e);
  }

  lemma AfterQuote(t: string, c: char, rest: string, st: State)
    requires AtCell(st) && c !in {',', '\r', '\n', '"'}
    ensures Scan(Cell(t, true).Written() + ([c] + rest), st) == Refused(INVALID, 0)
  {
    hide Doubled;
    var text := Cell(t, true).Written() + ([c] + rest);
    assert text[1..] == Doubled(t) + "\"" + ([c] + rest);
    ReadToClose(t, [c] + rest, st.(quoted := true));
  }

  /** Reading up to a closing quote that is not a doubled one. */
  lemma {:induction false} ReadToClose(t: string, rest: string, st: State)
    requires st.quoted && (|rest| > 0 ==> rest[0] != '"')
    ensures Scan(Doubled(t) + "\"" + rest, st) == Scan(rest, st.(field := st.field + t, quoted := false, closed := true))
  {
    var text := Doubled(t) + "\"" + rest;
    if |t| == 0 {
      assert text == "\"" + rest && text[1..] == rest && st.field + t == st.field;
    } else {
      var next := st.(field := st.field + [t[0]]);
      var more := Doubled(t[1..]) + "\"" + rest;
      assert text == (if t[0] == '"' then "\"\"" else [t[0]]) + more;
      assert text[if t[0] == '"' then 2 else 1..] == more;
      ReadToClose(t[1..], rest, next);
      assert next.field + t[1..] == st.field + t;
    }
  }

  /** A quote inside a cell that was begun without one is refused. */
  lemma QuoteInsideRefused(records: seq<WrittenRow>, cells: seq<Cell>, t: string, rest: string)
    requires ValidRecords(records) && forall i :: 0 <= i < |cells| ==> cells[i].Valid()
    requires |t| > 0 && !NeedsQuotes(t)
    ensures Parse(Opened(records, cells) + (t + ("\"" + rest))) == Refused(INVALID, 0)
  {
    var text := t + ("\"" + rest);
    ReadOpened(records, cells, text, START);
    var e :| AtCell(e) && Scan(Opened(records, cells) + text, START) == Scan(text, e);
    ReadPlain(t, "\"" + rest, e);
  }

  /** A cell whose quote is never closed is refused. */
  lemma UnclosedRefused(records: seq<WrittenRow>, cells: seq<Cell>, t: string)
    requires ValidRecords(records) && forall i :: 0 <= i < |cells| ==> cells[i].Valid()
    ensures Parse(Opened(records, cells) + ("\"" + Doubled(t))) == Refused(INVALID, 0)
  {
    var text := "\"" + Doubled(t);
    ReadOpened(records, cells, text, START);
    var e :| AtCell(e) && Scan(Opened(records, cells) + text, START) == Scan(text, e);
    assert text[1..] == Doubled(t);
    ReadUnclosed(t, e.(quoted := true));
  }

  lemma {:induction false} ReadUnclosed(t: string, st: State)
    requires st.quoted
    ensures Scan(Doubled(t), st) == Refused(INVALID, 0)
  {
    if |t| > 0 {
      var text := Doubled(t);
      assert text == (if t[0] == '"' then "\"\"" else [t[0]]) + Doubled(t[1..]);
      assert text[if t[0] == '"' then 2 else 1..] == Doubled(t[1..]);
      ReadUnclosed(t[1..], st.(field := st.field + [t[0]]));
    }
  }

  /* ----- nothing but the grammar is read ----- */

  /** A quoted remainder is closed, or runs unclosed to the end. */
  lemma {:induction false} QuotedShape(text: string) returns (t: string, rest: string, closed: bool)
    ensures closed ==> text == Doubled(t) + "\"" + rest && (|rest| > 0 ==> rest[0] != '"')
    ensures !closed ==> text == Doubled(t)
    ensures |rest| <= |text|
  {
    if |text| == 0 {
      t, rest, closed := "", "", false;
    } else if text[0] != '"' {
      t, rest, closed := QuotedShape(text[1..]);
      t := [text[0]] + t;
      assert t[1..] == t[1..] && Doubled(t) == [text[0]] + Doubled(t[1..]);
      assert text == [text[0]] + text[1..];
    } else if |text| > 1 && text[1] == '"' {
      t, rest, closed := QuotedShape(text[2..]);
      t := ['"'] + t;
      assert Doubled(t) == "\"\"" + Doubled(t[1..]);
      assert text == "\"\"" + text[2..];
    } else {
      t, rest, closed := "", text[1..], true;
      assert text == "\"" + rest;
    }
  }

  /** A plain remainder runs up to the next comma, line end or quote. */
  lemma {:induction false} PlainShape(text: string) returns (t: string, rest: string)
    ensures text == t + rest && !NeedsQuotes(t) && (|rest| > 0 ==> IsSpecial(rest[0]))
  {
    if |text| == 0 || IsSpecial(text[0]) {
      t, rest := "", text;
    } else {
      t, rest := PlainShape(text[1..]);
      t := [text[0]] + t;
      assert text == [text[0]] + text[1..];
    }
  }

  /** What a text that is read begins with: a cell, up to where it ends. */
  lemma FirstCell(text: string, st: State) returns (cell: Cell, rest: string)
    requires AtCell(st) && Scan(text, st).Done?
    ensures cell.Valid() && text == cell.Written() + rest && EndsCell(rest)
    ensures Scan(text, st) == Scan(rest, st.(field := cell.text, closed := cell.quoted))
  {
    if |text| > 0 && text[0] == '"' {
      var t, more, closed := QuotedShape(text[1..]);
      cell, rest := Cell(t, true), more;
      if closed {
        assert text == cell.Written() + rest;
        ReadToClose(t, rest, st.(quoted := true));
        assert "" + t == t;
      } else {
        ReadUnclosed(t, st.(quoted := true));
      }
    } else {
      var t, more := PlainShape(text);
      cell, rest := Cell(t, false), more;
      ReadPlain(t, rest, st);
      assert "" + t == t;
      assert |t| == 0 ==> text == rest;
    }
  }

  ghost predicate InGrammar(text: string) {
    exists records: seq<WrittenRow>, last: seq<Cell> :: ValidRecords(records) && ValidCells(last) && text == Document(records, last)
  }

  lemma OneCell(cell: Cell)
    requires cell.Valid()
    ensures InGrammar(cell.Written())
  {
    assert ValidCells([cell]) && ValidRecords([]) && Document([], [cell]) == cell.Written();
  }

  lemma CellInFront(cell: Cell, rest: string)
    requires cell.Valid() && InGrammar(rest)
    ensures InGrammar(cell.Written() + ("," + rest))
  {
    var records: seq<WrittenRow>, last: seq<Cell> :| ValidRecords(records) && ValidCells(last) && rest == Document(records, last);
    if |records| == 0 { CellBeforeLast(cell, last); } else { CellBeforeRow(cell, records, last); }
  }

  lemma ValidInFront(cell: Cell, cells: seq<Cell>)
    requires cell.Valid() && ValidCells(cells)
    ensures ValidCells([cell] + cells)
    ensures WrittenCells([cell] + cells) == cell.Written() + "," + WrittenCells(cells)
  {
    hide NeedsQuotes, Cell.Written;
    assert ([cell] + cells)[1..] == cells;
  }

  lemma Associates(a: string, b: string, c: string, d: string)
    ensures a + b + c == a + (b + c)
    ensures a + (b + (c + d)) == (a + (b + c)) + d
  {
  }

  lemma Exhibited(records: seq<WrittenRow>, last: seq<Cell>)
    requires ValidRecords(records) && ValidCells(last)
    ensures InGrammar(Document(records, last))
  {
  }

  lemma DocumentParts(records: seq<WrittenRow>, last: seq<Cell>)
    ensures |records| == 0 ==> Document(records, last) == WrittenCells(last)
    ensures |records| > 0 ==>
              Document(records, last) == WrittenCells(records[0].cells) + (records[0].end.Text() + Document(records[1..], last))
  {
  }

  lemma CellBeforeLast(cell: Cell, last: seq<Cell>)
    requires cell.Valid() && ValidCells(last)
    ensures InGrammar(cell.Written() + ("," + Document([], last)))
  {
    hide WrittenCells, ValidCells, Cell.Written, Cell.Valid, Document, InGrammar;
    ValidInFront(cell, last);
    DocumentParts([], last);
    DocumentParts([], [cell] + last);
    Associates(cell.Written(), ",", WrittenCells(last), "");
    Exhibited([], [cell] + last);
  }

  lemma CellBeforeRow(cell: Cell, records: seq<WrittenRow>, last: seq<Cell>)
    requires cell.Valid() && ValidRecords(records) && ValidCells(last) && |records| > 0
    ensures InGrammar(cell.Written() + ("," + Document(records, last)))
  {
    hide WrittenCells, ValidCells, Cell.Written, Cell.Valid, Document, InGrammar, LineEnd.Text;
    var row, end := records[0].cells, records[0].end;
    ValidInFront(cell, row);
    var more := [WrittenRow([cell] + row, end)] + records[1..];
    assert more[1..] == records[1..] && ValidRecords(more);
    DocumentParts(records, last);
    DocumentParts(more, last);
    var tail := end.Text() + Document(records[1..], last);
    Associates(cell.Written(), ",", WrittenCells(row), tail);
    Exhibited(more, last);
  }

  lemma RowInFront(cell: Cell, end: LineEnd, rest: string)
    requires cell.Valid() && InGrammar(rest)
    ensures InGrammar(cell.Written() + (end.Text() + rest))
  {
    var records: seq<WrittenRow>, last: seq<Cell> :| ValidRecords(records) && ValidCells(last) && rest == Document(records, last);
    var more := [WrittenRow([cell], end)] + records;
    assert ValidCells([cell]) && more[1..] == records && ValidRecords(more);
    assert Document(more, last) == cell.Written() + (end.Text() + rest);
  }

  lemma EndShape(rest: string) returns (end: LineEnd, more: string)
    requires |rest| > 0 && (rest[0] == '\r' || rest[0] == '\n')
    ensures rest == end.Text() + more && |more| < |rest|
  {
    if rest[0] == '\n' {
      end, more := LF, rest[1..];
    } else if |rest| > 1 && rest[1] == '\n' {
      end, more := CRLF, rest[2..];
    } else {
      end, more := CR, rest[1..];
    }
  }

  lemma {:induction false} ReadIsGrammar(text: string, st: State)
    requires AtCell(st) && Scan(text, st).Done?
    ensures InGrammar(text)
    decreases |text|
  {
    var cell, rest := FirstCell(text, st);
    var e := st.(field := cell.text, closed := cell.quoted);
    if |rest| == 0 {
      assert text == cell.Written();
      OneCell(cell);
    } else if rest[0] == ',' {
      assert rest == "," + rest[1..];
      ReadIsGrammar(rest[1..], e.(row := e.row + [e.field], field := "", closed := false));
      CellInFront(cell, rest[1..]);
    } else {
      var end, more := EndShape(rest);
      ReadLineEnd(end, more, e);
      ReadIsGrammar(more, EndRow(e));
      RowInFront(cell, end, more);
    }
  }

  /** The reader reads exactly the texts of the grammar, and every other text it refuses as a whole. */
  lemma ReadsIffGrammar(text: string)
    ensures Parse(text).Done? <==> InGrammar(text)
  {
    if InGrammar(text) {
      var records: seq<WrittenRow>, last: seq<Cell> :| ValidRecords(records) && ValidCells(last) && text == Document(records, last);
      GrammarReads(records, last);
    }
    if Parse(text).Done? { ReadIsGrammar(text, START); }
  }
}
