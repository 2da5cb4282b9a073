/** The hand-written CSV reader and the exporter's writer (web/board/draft-import.js); compare
    section 2 of RFC 4180.  Text is a sequence of characters; the reader never looks at anything
    but commas, quotes and line ends. */
module CsvFormat {

  datatype Parsed<+T> = Done(value: T) | Refused(code: string, record: nat)

  type Row = seq<string>

  const INVALID: string := "IMPORT_CSV_INVALID"

  /** The characters that trim removes. */
  predicate IsSpace(c: char) {
    || c in {'\t', '\n', '\U{0B}', '\U{0C}', '\r', ' ', '\U{A0}', '\U{1680}', '\U{2028}', '\U{2029}',
             '\U{202F}', '\U{205F}', '\U{3000}', '\U{FEFF}'}
    || '\U{2000}' <= c <= '\U{200A}'
  }

  predicate HasText(cell: string) { exists c :: c in cell && !IsSpace(c) }

  predicate NonBlank(row: Row) { exists cell :: cell in row && HasText(cell) }

  /** The rows that the reader keeps. */
  function KeepNonBlank(rows: seq<Row>): seq<Row> {
    if |rows| == 0 then []
    else KeepNonBlank(rows[..|rows| - 1]) + if NonBlank(rows[|rows| - 1]) then [rows[|rows| - 1]] else []
  }

  /* ----- the reader ----- */

  datatype State = State(rows: seq<Row>, row: Row, field: string, quoted: bool, closed: bool)

  const START: State := State([], [], "", false, false)

  function EndRow(st: State): State {
    var row := st.row + [st.field];
    State(if NonBlank(row) then st.rows + [row] else st.rows, [], "", false, false)
  }

  function Finish(st: State): Parsed<seq<Row>> {
    if st.quoted then Refused(INVALID, 0)
    else if |st.field| > 0 || |st.row| > 0 || st.closed then Done(EndRow(st).rows)
    else Done(st.rows)
  }

  predicate IsBreak(c: char) { c == '\r' || c == '\n' }

  /** What the reader makes of the remaining text in a given state. */
  function Scan(text: string, st: State): Parsed<seq<Row>>
    decreases |text|
  {
    if |text| == 0 then Finish(st)
    else
      var c := text[0];
      if st.quoted then
        if c != '"' then Scan(text[1..], st.(field := st.field + [c]))
        else if |text| > 1 && text[1] == '"' then Scan(text[2..], st.(field := st.field + ['"']))
        else Scan(text[1..], st.(quoted := false, closed := true))
      else if st.closed && c != ',' && !IsBreak(c) then Refused(INVALID, 0)
      else if c == '"' then
        if |st.field| > 0 then Refused(INVALID, 0) else Scan(text[1..], st.(quoted := true))
      else if c == ',' then Scan(text[1..], st.(row := st.row + [st.field], field := "", closed := false))
      else if IsBreak(c) then
        Scan(text[if c == '\r' && |text| > 1 && text[1] == '\n' then 2 else 1..], EndRow(st))
      else Scan(text[1..], st.(field := st.field + [c]))
  }

  function Parse(text: string): Parsed<seq<Row>> { Scan(text, START) }

  /** The character loop. */
  method ParseCsv(text: string) returns (result: Parsed<seq<Row>>)
    ensures result == Parse(text)
  {
    hide NonBlank;
    var rows: seq<Row>, row: Row, field := [], [], "";
    var quoted, quoteClosed := false, false;
    var index := 0;
    while index < |text|
      invariant 0 <= index <= |text|
      invariant Parse(text) == Scan(text[index..], State(rows, row, field, quoted, quoteClosed))
    {
      var c := text[index];
      if quoted {
        if c == '"' {
          if index + 1 < |text| && text[index + 1] == '"' {
            field := field + ['"'];
            index := index + 1;
          } else {
            quoted, quoteClosed := false, true;
          }
        } else {
          field := field + [c];
        }
        index := index + 1;
        continue;
      }
      if quoteClosed && c != ',' && c != '\r' && c != '\n' { return Refused(INVALID, 0); }
      if c == '"' {
        if |field| > 0 { return Refused(INVALID, 0); }
        quoted := true;
      } else if c == ',' {
        row, field, quoteClosed := row + [field], "", false;
      } else if c == '\r' || c == '\n' {
        row := row + [field];
        if NonBlank(row) { rows := rows + [row]; }
        row, field, quoteClosed := [], "", false;
        if c == '\r' && index + 1 < |text| && text[index + 1] == '\n' { index := index + 1; }
      } else {
        field := field + [c];
      }
      index := index + 1;
    }
    if quoted { return Refused(INVALID, 0); }
    if |field| > 0 || |row| > 0 || quoteClosed {
      row := row + [field];
      if NonBlank(row) { rows := rows + [row]; }
    }
    return Done(rows);
  }

  /* ----- the writer ----- */

  function Doubled(s: string): string {
    if |s| == 0 then "" else (if s[0] == '"' then "\"\"" else [s[0]]) + Doubled(s[1..])
  }

  predicate IsSpecial(c: char) { c == '"' || c == ',' || IsBreak(c) }

  predicate NeedsQuotes(cell: string) { exists c :: c in cell && IsSpecial(c) }

  function Escape(cell: string): string {
    if NeedsQuotes(cell) then "\"" + Doubled(cell) + "\"" else cell
  }

  function Join(parts: seq<string>, separator: string): string {
    if |parts| == 0 then ""
    else if |parts| == 1 then parts[0]
    else parts[0] + separator + Join(parts[1..], separator)
  }

  function EscapeAll(row: Row): seq<string> {
    if |row| == 0 then [] else [Escape(row[0])] + EscapeAll(row[1..])
  }

  function Line(row: Row): string { Join(EscapeAll(row), ",") }

  function Lines(table: seq<Row>): seq<string> {
    if |table| == 0 then [] else [Line(table[0])] + Lines(table[1..])
  }

  function Print(table: seq<Row>): string { Join(Lines(table), "\r\n") + "\r\n" }

  /* ----- reading back what was written ----- */

  /** A cell ends with its row, with the text, or before a comma. */
  predicate EndsCell(rest: string) { |rest| > 0 ==> rest[0] == ',' || IsBreak(rest[0]) }

  lemma {:induction false} ReadQuoted(cell: string, rest: string, st: State)
    requires st.quoted && EndsCell(rest)
    ensures Scan(Doubled(cell) + "\"" + rest, st)
         == Scan(rest, st.(field := st.field + cell, quoted := false, closed := true))
  {
    var text := Doubled(cell) + "\"" + rest;
    if |cell| == 0 {
      assert text == "\"" + rest;
      assert text[1..] == rest;
      assert st.field + cell == st.field;
    } else {
      var next := st.(field := st.field + [cell[0]]);
      var more := Doubled(cell[1..]) + "\"" + rest;
      assert text == (if cell[0] == '"' then "\"\"" else [cell[0]]) + more;
      assert text[if cell[0] == '"' then 2 else 1..] == more;
      ReadQuoted(cell[1..], rest, next);
      assert next.field + cell[1..] == st.field + cell;
    }
  }

  lemma {:induction false} ReadPlain(cell: string, rest: string, st: State)
    requires !st.quoted && !st.closed && !NeedsQuotes(cell)
    ensures Scan(cell + rest, st) == Scan(rest, st.(field := st.field + cell))
  {
    if |cell| == 0 {
      assert cell + rest == rest;
      assert st.field + cell == st.field;
    } else {
      var next := st.(field := st.field + [cell[0]]);
      assert cell[0] in cell && !IsSpecial(cell[0]);
      assert (cell + rest)[1..] == cell[1..] + rest;
      ReadPlain(cell[1..], rest, next);
      assert next.field + cell[1..] == st.field + cell;
    }
  }

  /** Between cells: nothing read of the current one yet. */
  predicate AtCell(st: State) { st.field == "" && !st.quoted && !st.closed }

  lemma ReadCell(cell: string, rest: string, st: State)
    requires AtCell(st) && EndsCell(rest)
    ensures Scan(Escape(cell) + rest, st) == Scan(rest, st.(field := cell, closed := NeedsQuotes(cell)))
  {
    if NeedsQuotes(cell) {
      var text := Escape(cell) + rest;
      assert text[1..] == Doubled(cell) + "\"" + rest;
      ReadQuoted(cell, rest, st.(quoted := true));
      assert "" + cell == cell;
    } else {
      ReadPlain(cell, rest, st);
      assert "" + cell == cell;
    }
  }

  lemma {:induction false} ReadCells(row: Row, rest: string, st: State)
    requires AtCell(st) && |row| > 0
    ensures Scan(Line(row) + ("\r\n" + rest), st)
         == Scan(rest, State(if NonBlank(st.row + row) then st.rows + [st.row + row] else st.rows, [], "", false, false))
  {
    var tail := "\r\n" + rest;
    if |row| == 1 {
      assert EscapeAll(row) == [Escape(row[0])];
      ReadCell(row[0], tail, st);
      assert tail[2..] == rest;
      assert st.row + [row[0]] == st.row + row;
    } else {
      var more := "," + (Line(row[1..]) + tail);
      assert |EscapeAll(row[1..])| > 0;
      assert EscapeAll(row)[1..] == EscapeAll(row[1..]);
      assert Line(row) + tail == Escape(row[0]) + more;
      ReadCell(row[0], more, st);
      assert more[1..] == Line(row[1..]) + tail;
      var next := st.(row := st.row + [row[0]]);
      ReadCells(row[1..], rest, next);
      assert next.row + row[1..] == st.row + row;
    }
  }

  lemma ReadLine(row: Row, rest: string, st: State)
    requires AtCell(st) && st.row == []
    ensures Scan(Line(row) + ("\r\n" + rest), st)
         == Scan(rest, State(if NonBlank(row) then st.rows + [row] else st.rows, [], "", false, false))
  {
    if |row| == 0 {
      var tail := "\r\n" + rest;
      assert Line(row) + tail == tail;
      assert tail[2..] == rest;
      assert !NonBlank([""]);
    } else {
      ReadCells(row, rest, st);
      assert [] + row == row;
    }
  }

  lemma {:induction false} KeepFront(rows: seq<Row>)
    requires |rows| > 0
    ensures KeepNonBlank(rows) == (if NonBlank(rows[0]) then [rows[0]] else []) + KeepNonBlank(rows[1..])
  {
    if |rows| > 1 {
      KeepFront(rows[..|rows| - 1]);
      assert rows[..|rows| - 1][1..] == rows[1..][..|rows[1..]| - 1];
    }
  }

  lemma {:induction false} ReadTable(table: seq<Row>, kept: seq<Row>)
    requires |table| > 0
    ensures Scan(Print(table), State(kept, [], "", false, false)) == Done(kept + KeepNonBlank(table))
  {
    var st := State(kept, [], "", false, false);
    KeepFront(table);
    if |table| == 1 {
      assert Lines(table) == [Line(table[0])];
      assert Print(table) == Line(table[0]) + ("\r\n" + "");
      ReadLine(table[0], "", st);
      assert KeepNonBlank(table) == if NonBlank(table[0]) then [table[0]] else [];
      assert NonBlank(table[0]) || kept + KeepNonBlank(table) == kept;
    } else {
      assert Lines(table)[1..] == Lines(table[1..]) && |Lines(table[1..])| > 0;
      assert Print(table) == Line(table[0]) + ("\r\n" + Print(table[1..]));
      ReadLine(table[0], Print(table[1..]), st);
      var kept' := if NonBlank(table[0]) then kept + [table[0]] else kept;
      ReadTable(table[1..], kept');
      assert kept' + KeepNonBlank(table[1..]) == kept + KeepNonBlank(table);
    }
  }

  /** Reading what the exporter wrote returns the table's own cells, whatever quotes, commas and
      line ends they hold; only rows without any text are lost. */
  lemma ReadBack(table: seq<Row>)
    ensures Parse(Print(table)) == Done(KeepNonBlank(table))
  {
    if |table| == 0 {
      assert Print(table) == Line([]) + ("\r\n" + "");
      ReadLine([], "", START);
    } else {
      ReadTable(table, []);
      assert [] + KeepNonBlank(table) == KeepNonBlank(table);
    }
  }

  lemma {:induction false} KeepsAllIff(rows: seq<Row>)
    ensures |KeepNonBlank(rows)| <= |rows|
    ensures (forall row :: row in rows ==> NonBlank(row)) <==> KeepNonBlank(rows) == rows
  {
    if |rows| > 0 {
      var n := |rows| - 1;
      KeepsAllIff(rows[..n]);
      assert rows == rows[..n] + [rows[n]];
      if KeepNonBlank(rows) == rows {
        assert |KeepNonBlank(rows[..n])| == n;
        assert KeepNonBlank(rows[..n]) == rows[..n];
      }
    }
  }

  /** The round trip is exact precisely for the tables whose every row has some text. */
  lemma RoundTripIff(table: seq<Row>)
    ensures Parse(Print(table)) == Done(table) <==> forall row :: row in table ==> NonBlank(row)
  {
    ReadBack(table);
    KeepsAllIff(table);
  }
}
