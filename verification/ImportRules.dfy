/** Exactly which files and records an import takes, and what it makes of them. */
module ImportRules {
  import opened Basics
  import opened CsvFormat
  import opened DraftImport

  /* ----- trimming ----- */

  ghost predicate AllSpace(s: string) { forall c :: c in s ==> IsSpace(c) }

  /** t is s without the space around it. */
  ghost predicate Trims(s: string, t: string) {
    && (|t| > 0 ==> !IsSpace(t[0]) && !IsSpace(t[|t| - 1]))
    && exists a, b :: AllSpace(a) && AllSpace(b) && s == a + t + b
  }

  lemma {:induction false} StartIsSpace(s: string) returns (a: string)
    ensures AllSpace(a) && s == a + TrimStart(s) && (|TrimStart(s)| > 0 ==> !IsSpace(TrimStart(s)[0]))
  {
    hide IsSpace;
    if |s| > 0 && IsSpace(s[0]) {
      a := StartIsSpace(s[1..]);
      a := [s[0]] + a;
      assert s == [s[0]] + s[1..];
    } else {
      a := "";
    }
  }

  lemma {:induction false} EndIsSpace(s: string) returns (b: string)
    ensures AllSpace(b) && s == TrimEnd(s) + b && (|TrimEnd(s)| > 0 ==> !IsSpace(TrimEnd(s)[|TrimEnd(s)| - 1]))
  {
    hide IsSpace;
    if |s| > 0 && IsSpace(s[|s| - 1]) {
      b := EndIsSpace(s[..|s| - 1]);
      b := b + [s[|s| - 1]];
      assert s == s[..|s| - 1] + [s[|s| - 1]];
    } else {
      b := "";
    }
  }

  lemma TrimTrims(s: string)
    ensures Trims(s, Trim(s))
  {
    hide IsSpace, AllSpace;
    var a := StartIsSpace(s);
    var b := EndIsSpace(TrimStart(s));
    assert s == a + Trim(s) + b;
  }

  /* ----- one record ----- */

  const FIELDS := {"code", "name", "source", "note"}

  ghost predicate SixDigits(s: string) { |s| == 6 && forall i :: 0 <= i < 6 ==> '0' <= s[i] <= '9' }

  /** A record that names a symbol, within the limits of the board. */
  ghost predicate Acceptable(r: Record, href: Url) {
    && r.Keys <= FIELDS && "code" in r && "name" in r
    && SixDigits(Trim(r["code"])) && 0 < |Trim(r["name"])| <= 100
    && ("note" in r ==> |r["note"]| <= 1000)
    && ("source" in r && Trim(r["source"]) != "" ==> |Trim(r["source"])| <= 2048 && href(Trim(r["source"])).Some?)
  }

  /** The draft of an acceptable record. */
  ghost predicate Yields(r: Record, href: Url, d: Draft)
    requires Acceptable(r, href)
  {
    && d.code == Trim(r["code"]) && d.name == Trim(r["name"])
    && d.note == (if "note" in r then Trim(r["note"]) else "")
    && (if "source" in r && Trim(r["source"]) != "" then Some(d.source) == href(Trim(r["source"])) else d.source == "")
  }

  lemma DigitsMean(s: string)
    ensures IsCode(s) <==> SixDigits(s)
  {
    assert forall i :: 0 <= i < |s| ==> s[i] in s;
  }

  lemma NormalizedIff(r: Record, n: nat, href: Url)
    ensures Normalize(r, n, href).Done? <==> Acceptable(r, href)
    ensures Acceptable(r, href) ==> Yields(r, href, Normalize(r, n, href).value)
  {
    hide Trim;
    TrimEmpty();
    assert forall key :: key in HEADER <==> key in FIELDS;
    if "code" in r {
      var code := Trim(r["code"]);
      DigitsMean(code);
    }
  }

  /* ----- all records ----- */

  ghost predicate AllAcceptable(records: seq<Record>, href: Url) {
    forall i :: 0 <= i < |records| ==> Acceptable(records[i], href)
  }

  /** No code twice, and none that the board has. */
  ghost predicate NewCodes(records: seq<Record>, seen: set<string>, href: Url)
    requires AllAcceptable(records, href)
  {
    && (forall i :: 0 <= i < |records| ==> Trim(records[i]["code"]) !in seen)
    && forall i, k :: 0 <= i < k < |records| ==> Trim(records[i]["code"]) != Trim(records[k]["code"])
  }

  ghost predicate AllYield(records: seq<Record>, href: Url, drafts: seq<Draft>)
    requires AllAcceptable(records, href)
  {
    |drafts| == |records| && forall i :: 0 <= i < |records| ==> Yields(records[i], href, drafts[i])
  }

  lemma CodesAre(records: seq<Record>, href: Url, drafts: seq<Draft>)
    requires AllAcceptable(records, href) && AllYield(records, href, drafts)
    ensures forall x :: x in CodesOf(drafts) <==> exists i :: 0 <= i < |records| && Trim(records[i]["code"]) == x
  {
    hide Trim;
    forall x | x in CodesOf(drafts) ensures exists i :: 0 <= i < |records| && Trim(records[i]["code"]) == x {
      var d :| d in drafts && d.code == x;
      var i :| 0 <= i < |drafts| && drafts[i] == d;
      assert Yields(records[i], href, drafts[i]);
    }
    forall i | 0 <= i < |records| ensures Trim(records[i]["code"]) in CodesOf(drafts) {
      assert Yields(records[i], href, drafts[i]) && drafts[i] in drafts;
    }
  }

  /** An import succeeds if and only if every record is acceptable and no code comes twice or is on the board
      already; then each record yields its own draft, in order. */
  lemma {:induction false} ImportedIff(records: seq<Record>, seen: set<string>, href: Url)
    ensures Import(records, seen, href).Done? <==> AllAcceptable(records, href) && NewCodes(records, seen, href)
    ensures Import(records, seen, href).Done? ==> AllYield(records, href, Import(records, seen, href).value)
  {
    hide Normalize, Trim, Acceptable, CodesOf, Yields, NewCodes, AllAcceptable, AllYield;
    if |records| == 0 {
      NothingToImport(records, seen, href);
    } else {
      var n := |records| - 1;
      var front, last := records[..n], records[n];
      ImportedIff(front, seen, href);
      NormalizedIff(last, n + 1, href);
      AcceptableAppend(records, href);
      if Import(front, seen, href).Done? && Acceptable(last, href) {
        var drafts, d := Import(front, seen, href).value, Normalize(last, n + 1, href).value;
        YieldAppend(records, href, drafts, d);
        NewCodesAppend(records, seen, href, drafts);
        YieldsCode(last, href, d);
      } else if AllAcceptable(records, href) {
        NewCodesFront(records, seen, href);
      }
    }
  }

  lemma NothingToImport(records: seq<Record>, seen: set<string>, href: Url)
    requires |records| == 0
    ensures AllAcceptable(records, href) && NewCodes(records, seen, href) && AllYield(records, href, [])
  {
  }

  lemma AcceptableAppend(records: seq<Record>, href: Url)
    requires |records| > 0
    ensures AllAcceptable(records, href)
       <==> AllAcceptable(records[..|records| - 1], href) && Acceptable(records[|records| - 1], href)
  {
    hide Acceptable;
  }

  lemma YieldAppend(records: seq<Record>, href: Url, drafts: seq<Draft>, d: Draft)
    requires |records| > 0 && AllAcceptable(records, href)
    requires AllAcceptable(records[..|records| - 1], href) && AllYield(records[..|records| - 1], href, drafts)
    requires Yields(records[|records| - 1], href, d)
    ensures AllYield(records, href, drafts + [d])
  {
    hide Acceptable, Yields;
    var n := |records| - 1;
    forall i | 0 <= i < |records| ensures Yields(records[i], href, (drafts + [d])[i]) {
      if i < n { assert records[..n][i] == records[i] && Yields(records[..n][i], href, drafts[i]); }
    }
  }

  lemma NewCodesFront(records: seq<Record>, seen: set<string>, href: Url)
    requires |records| > 0 && AllAcceptable(records, href) && AllAcceptable(records[..|records| - 1], href)
    ensures NewCodes(records, seen, href) ==> NewCodes(records[..|records| - 1], seen, href)
  {
    hide Trim;
  }

  lemma NewCodesAppend(records: seq<Record>, seen: set<string>, href: Url, drafts: seq<Draft>)
    requires |records| > 0 && AllAcceptable(records, href)
    requires AllAcceptable(records[..|records| - 1], href) && AllYield(records[..|records| - 1], href, drafts)
    ensures NewCodes(records, seen, href)
       <==> NewCodes(records[..|records| - 1], seen, href) && Trim(records[|records| - 1]["code"]) !in seen + CodesOf(drafts)
  {
    hide Trim, CodesOf, Acceptable, AllYield;
    var n := |records| - 1;
    CodesAre(records[..n], href, drafts);
    AcceptableCodes(records, href);
    assert forall i :: 0 <= i < n ==> records[..n][i] == records[i];
  }

  lemma AcceptableCodes(records: seq<Record>, href: Url)
    requires AllAcceptable(records, href)
    ensures forall i :: 0 <= i < |records| ==> "code" in records[i]
  {
    forall i | 0 <= i < |records| ensures "code" in records[i] { assert Acceptable(records[i], href); }
  }

  lemma YieldsCode(r: Record, href: Url, d: Draft)
    requires Acceptable(r, href) && Yields(r, href, d)
    ensures "code" in r && d.code == Trim(r["code"])
  {
  }

  /* ----- a file ----- */

  function Body(text: string): string { if MARK <= text then text[1..] else text }

  /** Headers of the board, trimmed, each once and the two required ones among them, over rows of their width. */
  ghost predicate Tabular(rows: seq<Row>) {
    && |rows| > 0 && (forall i :: 0 <= i < |rows| ==> |rows[i]| == |rows[0]|)
    && (forall k :: 0 <= k < |rows[0]| ==> Trim(rows[0][k]) in FIELDS)
    && (forall k, m :: 0 <= k < m < |rows[0]| ==> Trim(rows[0][k]) != Trim(rows[0][m]))
    && (exists k :: 0 <= k < |rows[0]| && Trim(rows[0][k]) == "code")
    && exists k :: 0 <= k < |rows[0]| && Trim(rows[0][k]) == "name"
  }

  /** Record i holds under each header what stands there in row i + 1. */
  ghost predicate Reads(rows: seq<Row>, records: seq<Record>)
    requires Tabular(rows)
  {
    && |records| == |rows| - 1
    && forall i, k :: 0 <= i < |records| && 0 <= k < |rows[0]| ==>
         Trim(rows[0][k]) in records[i] && records[i][Trim(rows[0][k])] == rows[i + 1][k]
  }

  lemma {:induction false} TrimmedAll(cells: Row)
    ensures |TrimAll(cells)| == |cells| && forall k :: 0 <= k < |cells| ==> TrimAll(cells)[k] == Trim(cells[k])
  {
    hide Trim;
    if |cells| > 0 { TrimmedAll(cells[..|cells| - 1]); }
  }

  lemma {:induction false} CellsUnderHeaders(headers: Row, cells: Row)
    requires |headers| == |cells| && forall k, m :: 0 <= k < m < |headers| ==> headers[k] != headers[m]
    ensures forall k :: 0 <= k < |headers| ==> headers[k] in RecordOf(headers, cells) && RecordOf(headers, cells)[headers[k]] == cells[k]
  {
    if |headers| > 0 { CellsUnderHeaders(headers[..|headers| - 1], cells[..|cells| - 1]); }
  }

  lemma {:induction false} RowsUnderHeaders(headers: Row, rows: seq<Row>)
    requires forall k, m :: 0 <= k < m < |headers| ==> headers[k] != headers[m]
    ensures RecordsOf(headers, rows).Done? <==> forall i :: 0 <= i < |rows| ==> |rows[i]| == |headers|
    ensures RecordsOf(headers, rows).Done? ==>
              var records := RecordsOf(headers, rows).value;
              |records| == |rows| && forall i :: 0 <= i < |rows| ==> |rows[i]| == |headers| && records[i] == RecordOf(headers, rows[i])
  {
    hide RecordOf;
    if |rows| > 0 {
      var n := |rows| - 1;
      RowsUnderHeaders(headers, rows[..n]);
      assert forall i :: 0 <= i < n ==> rows[..n][i] == rows[i];
    }
  }

  lemma HeadersMean(cells: Row)
    ensures HeaderValid(TrimAll(cells))
       <==> && (forall k :: 0 <= k < |cells| ==> Trim(cells[k]) in FIELDS)
            && (forall k, m :: 0 <= k < m < |cells| ==> Trim(cells[k]) != Trim(cells[m]))
            && (exists k :: 0 <= k < |cells| && Trim(cells[k]) == "code")
            && (exists k :: 0 <= k < |cells| && Trim(cells[k]) == "name")
  {
    hide Trim, TrimAll;
    TrimmedAll(cells);
    var heads := TrimAll(cells);
    assert forall key :: key in HEADER <==> key in FIELDS;
    assert forall k :: 0 <= k < |heads| ==> heads[k] in heads;
  }

  /** A file gives records if and only if its rows that have text are a table under headers of the board, and
      then one record for each row below the first. */
  lemma FileReadIff(text: string)
    ensures RecordsFromCsv(text).Done? <==> Parse(Body(text)).Done? && Tabular(Parse(Body(text)).value)
    ensures RecordsFromCsv(text).Done? ==> Reads(Parse(Body(text)).value, RecordsFromCsv(text).value)
  {
    hide Parse, TrimAll, HeaderValid, RecordsOf, Tabular, Reads;
    if Parse(Body(text)).Done? {
      var rows := Parse(Body(text)).value;
      if |rows| == 0 {
        NoTable(rows);
      } else {
        TableIff(rows);
        if Tabular(rows) { TableReads(rows); }
      }
    }
  }

  lemma NoTable(rows: seq<Row>)
    requires |rows| == 0
    ensures !Tabular(rows)
  {
  }

  lemma TableIff(rows: seq<Row>)
    requires |rows| > 0
    ensures Tabular(rows) <==> HeaderValid(TrimAll(rows[0])) && RecordsOf(TrimAll(rows[0]), rows[1..]).Done?
  {
    hide Trim, TrimAll, HeaderValid, RecordsOf;
    HeadersMean(rows[0]);
    TrimmedAll(rows[0]);
    var heads := TrimAll(rows[0]);
    if HeaderValid(heads) {
      RowsUnderHeaders(heads, rows[1..]);
      assert forall i :: 0 < i < |rows| ==> rows[1..][i - 1] == rows[i];
    }
  }

  lemma TableReads(rows: seq<Row>)
    requires Tabular(rows)
    ensures RecordsOf(TrimAll(rows[0]), rows[1..]).Done? && Reads(rows, RecordsOf(TrimAll(rows[0]), rows[1..]).value)
  {
    hide Trim, TrimAll, RecordsOf, RecordOf;
    var heads := TrimAll(rows[0]);
    TrimmedAll(rows[0]);
    RowsUnderHeaders(heads, rows[1..]);
    assert forall i :: 0 < i < |rows| ==> rows[1..][i - 1] == rows[i];
    forall i | 0 < i < |rows|
      ensures forall k :: 0 <= k < |heads| ==> heads[k] in RecordOf(heads, rows[i]) && RecordOf(heads, rows[i])[heads[k]] == rows[i][k]
    {
      CellsUnderHeaders(heads, rows[i]);
    }
  }

  /** A file is imported if and only if it gives a record at least, every record of it is
      acceptable, and no code comes twice or is on the board already. */
  lemma FileImportedIff(text: string, existing: set<string>, href: Url)
    ensures ImportCsv(text, existing, href).Done?
       <==> && RecordsFromCsv(text).Done? && |RecordsFromCsv(text).value| > 0
            && AllAcceptable(RecordsFromCsv(text).value, href) && NewCodes(RecordsFromCsv(text).value, existing, href)
    ensures ImportCsv(text, existing, href).Done? ==>
              AllYield(RecordsFromCsv(text).value, href, ImportCsv(text, existing, href).value)
  {
    hide Import, RecordsFromCsv, AllAcceptable, NewCodes, AllYield;
    if RecordsFromCsv(text).Done? { ImportedIff(RecordsFromCsv(text).value, existing, href); }
  }

  /* ----- the export ----- */

  function IsActive(): BoardSymbol -> bool { (s: BoardSymbol) => !s.archived }

  lemma {:induction false} ActiveAreSelected(symbols: seq<BoardSymbol>)
    ensures var active := Select(IsActive(), symbols);
            |ActiveRows(symbols)| == |active| && forall i :: 0 <= i < |active| ==> ActiveRows(symbols)[i] == RowOf(active[i])
  {
    hide RowOf;
    if |symbols| > 0 { ActiveAreSelected(symbols[..|symbols| - 1]); }
  }

  /** An exported file reads as the header and then the cells of each symbol that is not archived, in order,
      but for rows without any text. */
  lemma ExportReadsBack(symbols: seq<BoardSymbol>)
    ensures exists rows :: Parse(Body(ExportCsv(symbols))) == Done(KeepNonBlank([["code", "name", "source", "note"]] + rows))
                           && var active := Select(IsActive(), symbols);
                              |rows| == |active| && forall i :: 0 <= i < |active| ==>
                                rows[i] == [active[i].code, active[i].name,
                                            if active[i].source.Some? then active[i].source.value else "",
                                            if active[i].note.Some? then active[i].note.value else ""]
  {
    hide Parse, Print, KeepNonBlank, ActiveRows, Select;
    var rows := ActiveRows(symbols);
    ActiveAreSelected(symbols);
    ReadBack([HEADER] + rows);
    assert Body(ExportCsv(symbols)) == Print([HEADER] + rows);
  }
}
