/** Symbol drafts imported from and exported to CSV (web/board/draft-import.js).  The URL library is
    a parameter: href gives the normal form of an http or https address, or nothing. */
module DraftImport {
  import opened Basics
  import opened CsvFormat

  datatype BoardSymbol = BoardSymbol(code: string, name: string, source: Option<string>, note: Option<string>, archived: bool)

  /** An imported draft; its pattern is empty and it is not archived. */
  datatype Draft = Draft(code: string, name: string, source: string, note: string)

  type Url = string -> Option<string>

  type Record = map<string, string>

  const HEADER: Row := ["code", "name", "source", "note"]
  const MARK: string := "\U{FEFF}"

  function TrimStart(s: string): string {
    if |s| > 0 && IsSpace(s[0]) then TrimStart(s[1..]) else s
  }

  function TrimEnd(s: string): string {
    if |s| > 0 && IsSpace(s[|s| - 1]) then TrimEnd(s[..|s| - 1]) else s
  }

  function Trim(s: string): string { TrimEnd(TrimStart(s)) }

  function TrimAll(cells: Row): Row {
    if |cells| == 0 then [] else TrimAll(cells[..|cells| - 1]) + [Trim(cells[|cells| - 1])]
  }

  /* ----- export ----- */

  function OrEmpty(o: Option<string>): string { if o.Some? then o.value else "" }

  function RowOf(s: BoardSymbol): Row { [s.code, s.name, OrEmpty(s.source), OrEmpty(s.note)] }

  function ActiveRows(symbols: seq<BoardSymbol>): seq<Row> {
    if |symbols| == 0 then []
    else ActiveRows(symbols[..|symbols| - 1]) + if symbols[|symbols| - 1].archived then [] else [RowOf(symbols[|symbols| - 1])]
  }

  function ExportCsv(symbols: seq<BoardSymbol>): string { MARK + Print([HEADER] + ActiveRows(symbols)) }

  /* ----- import ----- */

  predicate HeaderValid(headers: Row) {
    && (forall i, k :: 0 <= i < k < |headers| ==> headers[i] != headers[k])
    && "code" in headers && "name" in headers
    && forall h :: h in headers ==> h in HEADER
  }

  /** Later entries win, as in Object.fromEntries. */
  function RecordOf(headers: Row, cells: Row): Record
    requires |headers| == |cells|
  {
    if |headers| == 0 then map[]
    else RecordOf(headers[..|headers| - 1], cells[..|cells| - 1])[headers[|headers| - 1] := cells[|cells| - 1]]
  }

  function RecordsOf(headers: Row, rows: seq<Row>): Parsed<seq<Record>> {
    if |rows| == 0 then Done([])
    else
      var n := |rows| - 1;
      match RecordsOf(headers, rows[..n])
      case Refused(code, record) => Refused(code, record)
      case Done(front) =>
        if |rows[n]| != |headers| then Refused(INVALID, n + 2) else Done(front + [RecordOf(headers, rows[n])])
  }

  function RecordsFromCsv(text: string): Parsed<seq<Record>> {
    match Parse(if MARK <= text then text[1..] else text)
    case Refused(code, record) => Refused(code, record)
    case Done(rows) =>
      if |rows| == 0 then Refused("IMPORT_EMPTY", 0)
      else if !HeaderValid(TrimAll(rows[0])) then Refused("IMPORT_CSV_HEADER_INVALID", 0)
      else RecordsOf(TrimAll(rows[0]), rows[1..])
  }

  function Field(r: Record, key: string): string { if key in r then r[key] else "" }

  predicate IsCode(s: string) { |s| == 6 && forall c :: c in s ==> '0' <= c <= '9' }

  const SYMBOL_INVALID: string := "IMPORT_SYMBOL_INVALID"

  function SourceUrl(value: string, n: nat, href: Url): Parsed<string> {
    if value == "" then Done("")
    else if |value| > 2048 || href(value).None? then Refused(SYMBOL_INVALID, n)
    else Done(href(value).value)
  }

  function Normalize(r: Record, n: nat, href: Url): Parsed<Draft> {
    if exists key :: key in r && key !in HEADER then Refused("IMPORT_FIELDS_INVALID", n)
    else if "code" !in r || "name" !in r then Refused(SYMBOL_INVALID, n)
    else
      var code, name, note := Trim(r["code"]), Trim(r["name"]), Field(r, "note");
      if !IsCode(code) || name == "" || |name| > 100 || |note| > 1000 then Refused(SYMBOL_INVALID, n)
      else
        match SourceUrl(Trim(Field(r, "source")), n, href)
        case Refused(c, k) => Refused(c, k)
        case Done(url) => Done(Draft(code, name, url, Trim(note)))
  }

  function CodesOf(drafts: seq<Draft>): set<string> { set d | d in drafts :: d.code }

  /** The drafts of the first records, refusing the first record that is invalid or repeats a code. */
  function Import(records: seq<Record>, seen: set<string>, href: Url): Parsed<seq<Draft>> {
    if |records| == 0 then Done([])
    else
      var n := |records| - 1;
      match Import(records[..n], seen, href)
      case Refused(c, k) => Refused(c, k)
      case Done(front) =>
        match Normalize(records[n], n + 1, href)
        case Refused(c, k) => Refused(c, k)
        case Done(d) =>
          if d.code in seen + CodesOf(front) then Refused("IMPORT_DUPLICATE_SYMBOL", n + 1) else Done(front + [d])
  }

  function ImportCsv(text: string, existing: set<string>, href: Url): Parsed<seq<Draft>> {
    match RecordsFromCsv(text)
    case Refused(c, k) => Refused(c, k)
    case Done(records) => if |records| == 0 then Refused("IMPORT_EMPTY", 0) else Import(records, existing, href)
  }

  lemma {:induction false} ImportFront(records: seq<Record>, seen: set<string>, href: Url, i: nat)
    requires i <= |records| && Import(records[..i], seen, href).Refused?
    ensures Import(records, seen, href) == Import(records[..i], seen, href)
    decreases |records|
  {
    if i == |records| {
      assert records[..i] == records;
    } else {
      var n := |records| - 1;
      assert records[..n][..i] == records[..i];
      ImportFront(records[..n], seen, href, i);
    }
  }

  /** The loop that normalises each record and remembers the codes it has seen. */
  method ImportRecords(records: seq<Record>, existing: set<string>, href: Url) returns (result: Parsed<seq<Draft>>)
    ensures result == Import(records, existing, href)
  {
    hide Normalize;
    var seen := existing;
    var drafts: seq<Draft> := [];
    var i := 0;
    while i < |records|
      invariant 0 <= i <= |records|
      invariant Import(records[..i], existing, href) == Done(drafts)
      invariant seen == existing + CodesOf(drafts)
    {
      assert records[..i + 1][..i] == records[..i];
      var normalized := Normalize(records[i], i + 1, href);
      if normalized.Refused? || normalized.value.code in seen {
        ImportFront(records, existing, href, i + 1);
        return if normalized.Refused? then Refused(normalized.code, normalized.record)
               else Refused("IMPORT_DUPLICATE_SYMBOL", i + 1);
      }
      seen := seen + {normalized.value.code};
      drafts := drafts + [normalized.value];
      i := i + 1;
    }
    assert records[..i] == records;
    result := Done(drafts);
  }

  /* ----- importing what was exported ----- */

  /** A draft in the form an import gives it. */
  ghost predicate Canonical(d: Draft, href: Url) {
    && IsCode(d.code) && d.name != "" && |d.name| <= 100 && |d.note| <= 1000
    && Trim(d.name) == d.name && Trim(d.note) == d.note
    && (d.source == "" || href(d.source) == Some(d.source)) && Trim(d.source) == d.source
  }

  /** A normal form is non-empty, free of outer space and its own normal form. */
  ghost predicate Normalizes(href: Url) {
    forall x: string :: href(x).Some? ==>
      href(x).value != "" && href(href(x).value) == href(x) && Trim(href(x).value) == href(x).value
  }

  function SymbolOf(d: Draft): BoardSymbol { BoardSymbol(d.code, d.name, Some(d.source), Some(d.note), false) }

  function SymbolsOf(drafts: seq<Draft>): seq<BoardSymbol> {
    if |drafts| == 0 then [] else SymbolsOf(drafts[..|drafts| - 1]) + [SymbolOf(drafts[|drafts| - 1])]
  }

  function CellsOf(d: Draft): Row { [d.code, d.name, d.source, d.note] }

  function DraftRows(drafts: seq<Draft>): seq<Row> {
    if |drafts| == 0 then [] else DraftRows(drafts[..|drafts| - 1]) + [CellsOf(drafts[|drafts| - 1])]
  }

  function DraftRecord(d: Draft): Record { map["code" := d.code, "name" := d.name, "source" := d.source, "note" := d.note] }

  function DraftRecords(drafts: seq<Draft>): seq<Record> {
    if |drafts| == 0 then [] else DraftRecords(drafts[..|drafts| - 1]) + [DraftRecord(drafts[|drafts| - 1])]
  }

  lemma {:induction false} ActiveAreDrafts(drafts: seq<Draft>)
    ensures ActiveRows(SymbolsOf(drafts)) == DraftRows(drafts)
  {
    if |drafts| > 0 {
      var n := |drafts| - 1;
      ActiveAreDrafts(drafts[..n]);
      var symbols := SymbolsOf(drafts);
      assert symbols[..|symbols| - 1] == SymbolsOf(drafts[..n]);
    }
  }

  lemma DigitsAreNotSpace(s: string)
    requires IsCode(s)
    ensures Trim(s) == s && HasText(s)
  {
    assert s[0] in s && s[5] in s;
  }

  lemma WordTrims(s: string)
    requires |s| > 0 && !IsSpace(s[0]) && !IsSpace(s[|s| - 1])
    ensures Trim(s) == s && HasText(s)
  {
    hide IsSpace;
    assert s[0] in s;
  }

  lemma TrimFour(a: string, b: string, c: string, d: string)
    ensures TrimAll([a, b, c, d]) == [Trim(a), Trim(b), Trim(c), Trim(d)]
  {
    hide Trim;
    assert [a, b, c, d][..3] == [a, b, c] && [a, b, c][..2] == [a, b] && [a, b][..1] == [a];
    assert TrimAll([a]) == [Trim(a)];
    assert TrimAll([a, b]) == [Trim(a), Trim(b)];
  }

  lemma HeaderTrims()
    ensures TrimAll(HEADER) == HEADER && HeaderValid(HEADER) && NonBlank(HEADER)
  {
    hide Trim, TrimAll, HasText;
    WordTrims("code");
    WordTrims("name");
    WordTrims("source");
    WordTrims("note");
    TrimFour("code", "name", "source", "note");
    assert HEADER[0] == "code" && HEADER[1] == "name" && HEADER[2] == "source" && HEADER[3] == "note";
    assert "code" in HEADER && "name" in HEADER;
  }

  lemma RecordOfCells(d: Draft)
    ensures RecordOf(HEADER, CellsOf(d)) == DraftRecord(d)
  {
    var c := CellsOf(d);
    assert HEADER[..3] == ["code", "name", "source"] && c[..3] == [d.code, d.name, d.source];
    assert HEADER[..3][..2] == ["code", "name"] && c[..3][..2] == [d.code, d.name];
    assert HEADER[..3][..2][..1] == ["code"] && c[..3][..2][..1] == [d.code];
    assert RecordOf(["code"], [d.code]) == map["code" := d.code];
    assert RecordOf(["code", "name"], [d.code, d.name]) == map["code" := d.code, "name" := d.name];
  }

  lemma {:induction false} DraftRowsRead(drafts: seq<Draft>)
    requires forall d :: d in drafts ==> IsCode(d.code)
    ensures forall row :: row in DraftRows(drafts) ==> NonBlank(row)
    ensures RecordsOf(HEADER, DraftRows(drafts)) == Done(DraftRecords(drafts))
    ensures |DraftRows(drafts)| == |drafts| == |DraftRecords(drafts)|
  {
    if |drafts| > 0 {
      var n := |drafts| - 1;
      var rows := DraftRows(drafts);
      DraftRowsRead(drafts[..n]);
      assert rows[..|rows| - 1] == DraftRows(drafts[..n]);
      assert drafts[n] in drafts;
      DigitsAreNotSpace(drafts[n].code);
      assert CellsOf(drafts[n])[0] == drafts[n].code;
      RecordOfCells(drafts[n]);
    }
  }

  /** The exported text reads back as one record per draft. */
  lemma ExportReads(drafts: seq<Draft>)
    requires forall d :: d in drafts ==> IsCode(d.code)
    ensures RecordsFromCsv(ExportCsv(SymbolsOf(drafts))) == Done(DraftRecords(drafts))
  {
    hide Print, Parse, HeaderValid, TrimAll, NonBlank;
    var table := [HEADER] + DraftRows(drafts);
    ActiveAreDrafts(drafts);
    HeaderTrims();
    DraftRowsRead(drafts);
    RoundTripIff(table);
    var text := ExportCsv(SymbolsOf(drafts));
    assert text[1..] == Print(table);
    assert table[1..] == DraftRows(drafts);
  }

  /** Normalising an exported canonical draft returns it, unless its address has become too long. */
  lemma NormalizeDraft(d: Draft, n: nat, href: Url)
    requires Canonical(d, href)
    ensures Normalize(DraftRecord(d), n, href) == if |d.source| <= 2048 then Done(d) else Refused(SYMBOL_INVALID, n)
  {
    hide Trim;
    CodeTrims(d.code);
  }

  lemma CodeTrims(s: string)
    requires IsCode(s)
    ensures Trim(s) == s
  {
    DigitsAreNotSpace(s);
  }

  ghost predicate DistinctCodes(drafts: seq<Draft>) {
    forall i, k :: 0 <= i < k < |drafts| ==> drafts[i].code != drafts[k].code
  }

  lemma {:induction false} DraftsImport(drafts: seq<Draft>, href: Url)
    requires DistinctCodes(drafts) && forall d :: d in drafts ==> Canonical(d, href)
    ensures Import(DraftRecords(drafts), {}, href) == Done(drafts) <==> forall d :: d in drafts ==> |d.source| <= 2048
    ensures |DraftRecords(drafts)| == |drafts|
  {
    hide Normalize, Canonical;
    if |drafts| > 0 {
      var n := |drafts| - 1;
      var front, d := drafts[..n], drafts[n];
      assert drafts == front + [d];
      assert d in drafts;
      DraftsImport(front, href);
      NormalizeDraft(d, n + 1, href);
      assert DraftRecords(drafts)[..n] == DraftRecords(front);
      assert d.code !in CodesOf(front);
      if Import(DraftRecords(drafts), {}, href) == Done(drafts) {
        ImportLength(DraftRecords(front), {}, href);
      }
    }
  }

  lemma {:induction false} ImportLength(records: seq<Record>, seen: set<string>, href: Url)
    ensures Import(records, seen, href).Done? ==> |Import(records, seen, href).value| == |records|
  {
    if |records| > 0 { ImportLength(records[..|records| - 1], seen, href); }
  }

  lemma {:induction false} TrimIsIdempotent(s: string)
    ensures Trim(Trim(s)) == Trim(s) && |Trim(s)| <= |s|
  {
    var t := TrimStart(s);
    TrimStartStops(s);
    TrimEndStops(t);
  }

  lemma {:induction false} TrimStartStops(s: string)
    ensures |TrimStart(s)| <= |s|
    ensures |TrimStart(s)| > 0 ==> !IsSpace(TrimStart(s)[0])
  {
    if |s| > 0 && IsSpace(s[0]) { TrimStartStops(s[1..]); }
  }

  lemma {:induction false} TrimEndStops(s: string)
    ensures TrimEnd(s) <= s
    ensures |TrimEnd(s)| > 0 ==> !IsSpace(TrimEnd(s)[|TrimEnd(s)| - 1])
  {
    if |s| > 0 && IsSpace(s[|s| - 1]) { TrimEndStops(s[..|s| - 1]); }
  }

  lemma NormalizeIsCanonical(r: Record, n: nat, href: Url)
    requires Normalizes(href) && Normalize(r, n, href).Done?
    ensures Canonical(Normalize(r, n, href).value, href)
  {
    hide Trim;
    TrimIsIdempotent(r["name"]);
    TrimIsIdempotent(Field(r, "note"));
    TrimEmpty();
  }

  lemma TrimEmpty()
    ensures Trim("") == ""
  {
  }

  /** An import yields canonical drafts with codes of their own. */
  lemma {:induction false} ImportIsCanonical(records: seq<Record>, seen: set<string>, href: Url)
    requires Normalizes(href) && Import(records, seen, href).Done?
    ensures var drafts := Import(records, seen, href).value;
            DistinctCodes(drafts) && forall d :: d in drafts ==> Canonical(d, href) && d.code !in seen
  {
    hide Normalize, Canonical, Normalizes;
    if |records| > 0 {
      var n := |records| - 1;
      ImportIsCanonical(records[..n], seen, href);
      NormalizeIsCanonical(records[n], n + 1, href);
      var front := Import(records[..n], seen, href).value;
      assert forall d :: d in front ==> d.code in CodesOf(front);
    }
  }

  /** Drafts once imported from any text, exported and imported again come back unchanged exactly
      when no normalised address has outgrown the importer's own limit of 2048. */
  lemma SecondImport(text: string, href: Url)
    requires Normalizes(href) && ImportCsv(text, {}, href).Done?
    ensures var drafts := ImportCsv(text, {}, href).value;
            ImportCsv(ExportCsv(SymbolsOf(drafts)), {}, href) == Done(drafts)
            <==> forall d :: d in drafts ==> |d.source| <= 2048
  {
    hide Import, ExportCsv, RecordsFromCsv, Normalizes, DistinctCodes;
    var records := RecordsFromCsv(text).value;
    ImportIsCanonical(records, {}, href);
    ImportLength(records, {}, href);
    var drafts := Import(records, {}, href).value;
    ExportReads(drafts);
    DraftsImport(drafts, href);
  }

  /* ----- a draft that outgrows the importer ----- */

  const GROWN: string := seq(2049, _ => 'a')

  /** A normaliser that gives the short address a normal form of 2049 characters. */
  function Growing(): Url { (x: string) => if x == "u" || x == GROWN then Some(GROWN) else None }

  function DraftAt(source: string): Draft { Draft("005930", "Samsung", source, "") }

  lemma GrowingNormalizes()
    ensures Normalizes(Growing()) && Growing()("u") == Growing()(GROWN) == Some(GROWN) && |GROWN| == 2049
    ensures Trim(GROWN) == GROWN && Trim("u") == "u" && Trim("Samsung") == "Samsung" && Trim("005930") == "005930"
  {
    hide Trim;
    assert GROWN[0] == 'a' && GROWN[2048] == 'a';
    WordTrims(GROWN);
    WordTrims("u");
    WordTrims("Samsung");
    assert IsCode("005930");
    CodeTrims("005930");
  }

  lemma ImportOne(source: string)
    ensures RecordsFromCsv(ExportCsv([SymbolOf(DraftAt(source))])) == Done([DraftRecord(DraftAt(source))])
  {
    hide RecordsFromCsv, ExportCsv;
    var drafts := [DraftAt(source)];
    assert IsCode("005930");
    assert SymbolsOf(drafts) == [SymbolOf(drafts[0])] && DraftRecords(drafts) == [DraftRecord(drafts[0])];
    ExportReads(drafts);
  }

  lemma ImportSingle(record: Record, href: Url)
    ensures Import([record], {}, href) == match Normalize(record, 1, href)
                                          case Refused(c, k) => Refused(c, k)
                                          case Done(d) => Done([d])
  {
    hide Normalize;
    var none: seq<Draft> := [];
    assert [record][..0] == [] && CodesOf(none) == {};
    assert forall d: Draft :: none + [d] == [d];
  }

  lemma GrowingDrafts()
    ensures Normalize(DraftRecord(DraftAt("u")), 1, Growing()) == Done(DraftAt(GROWN))
    ensures Normalize(DraftRecord(DraftAt(GROWN)), 1, Growing()) == Refused(SYMBOL_INVALID, 1)
  {
    hide Trim;
    GrowingNormalizes();
    TrimEmpty();
    assert IsCode("005930");
  }

  /** A file whose import succeeds and yields a draft that, exported, is refused. */
  lemma SecondImportExample()
    ensures Normalizes(Growing())
    ensures ImportCsv(ExportCsv([SymbolOf(DraftAt("u"))]), {}, Growing()) == Done([DraftAt(GROWN)])
    ensures ImportCsv(ExportCsv([SymbolOf(DraftAt(GROWN))]), {}, Growing()) == Refused(SYMBOL_INVALID, 1)
  {
    hide RecordsFromCsv, ExportCsv, Normalize, Import, Normalizes;
    GrowingNormalizes();
    GrowingDrafts();
    ImportOne("u");
    ImportOne(GROWN);
    ImportSingle(DraftRecord(DraftAt("u")), Growing());
    ImportSingle(DraftRecord(DraftAt(GROWN)), Growing());
  }
}
