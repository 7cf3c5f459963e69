/**
 * Ingestion (src/lib/data-processing/fileParser.ts): choosing a parser from
 * the file name, and turning what the parsing libraries return into a
 * `ParsedData` value. The libraries themselves are outside the model: the CSV
 * parser's completion and the spreadsheet's rows (`sheet_to_json` with
 * `header: 1`) arrive as parameters.
 */
module FileParser {
  import opened Wrappers
  import opened Text
  import opened Records

  datatype FileType = Csv | Xlsx

  datatype ParsedData = ParsedData(data: seq<Record>, headers: seq<string>, fileName: string, fileType: FileType)

  /** `name.split('.').pop()`: the longest dot-free tail of the name (all of it when there is no dot). */
  function AfterLastDot(name: string): (ext: string)
    ensures '.' !in ext
    ensures |ext| <= |name| && ext == name[|name| - |ext|..]
    ensures |ext| < |name| ==> name[|name| - |ext| - 1] == '.'
  {
    if name == [] then []
    else if name[|name| - 1] == '.' then []
    else
      var init := name[..|name| - 1];
      var ext := AfterLastDot(init) + [name[|name| - 1]];
      assert name == init + [name[|name| - 1]];
      assert name[|name| - |ext|..] == init[|init| - (|ext| - 1)..] + [name[|name| - 1]];
      ext
  }

  /** The extension the dispatch compares: the tail after the last dot, lower-cased. */
  function Extension(name: string): string
  {
    Lower(AfterLastDot(name))
  }

  datatype Route = CsvRoute | XlsxRoute | UnsupportedRoute

  /** `parseFile`'s choice: 'csv' to the CSV parser, 'xlsx' or 'xls' to the spreadsheet parser, anything else refused. */
  function Dispatch(name: string): Route
  {
    var ext := Extension(name);
    if ext == "csv" then CsvRoute
    else if ext == "xlsx" || ext == "xls" then XlsxRoute
    else UnsupportedRoute
  }

  const UnsupportedMessage := "Unsupported file type. Please upload a CSV or XLSX file."

  lemma LowerAppend(a: string, b: string)
    ensures Lower(a + b) == Lower(a) + Lower(b)
  {
  }

  /** Lower-casing leaves dots where they are, so it commutes with taking the extension. */
  lemma {:induction false} AfterLastDotLower(name: string)
    ensures AfterLastDot(Lower(name)) == Lower(AfterLastDot(name))
  {
    if name != [] {
      var init := name[..|name| - 1];
      var c := name[|name| - 1];
      var low := Lower(name);
      assert low[|low| - 1] == LowerChar(c);
      assert LowerChar(c) == '.' <==> c == '.';
      assert low[..|low| - 1] == Lower(init);
      if c != '.' {
        calc {
          AfterLastDot(low);
          AfterLastDot(Lower(init)) + [LowerChar(c)];
          { AfterLastDotLower(init); }
          Lower(AfterLastDot(init)) + [LowerChar(c)];
          { LowerAppend(AfterLastDot(init), [c]); }
          Lower(AfterLastDot(init) + [c]);
        }
      }
    }
  }

  lemma LowerIdempotent(s: string)
    ensures Lower(Lower(s)) == Lower(s)
  {
  }

  /** Dispatch ignores case: a name and its lower-cased form take the same path. */
  lemma DispatchIgnoresCase(name: string)
    ensures Dispatch(Lower(name)) == Dispatch(name)
  {
    AfterLastDotLower(name);
    LowerIdempotent(AfterLastDot(name));
  }

  /** A name without a dot is its own extension. */
  lemma {:induction false} NoDotWholeName(name: string)
    requires '.' !in name
    ensures AfterLastDot(name) == name
  {
    if name != [] {
      var init := name[..|name| - 1];
      assert name == init + [name[|name| - 1]];
      assert '.' !in init by {
        forall i | 0 <= i < |init| ensures init[i] != '.' {
          assert init[i] == name[i];
        }
      }
      NoDotWholeName(init);
    }
  }

  /** Only the text after the last dot is the extension, however many dots come before it. */
  lemma {:induction false} AfterLastDotOf(stem: string, ext: string)
    requires '.' !in ext
    ensures AfterLastDot(stem + "." + ext) == ext
  {
    var name := stem + "." + ext;
    if ext == [] {
      assert name[|name| - 1] == '.';
    } else {
      var init := ext[..|ext| - 1];
      assert '.' !in init by {
        forall i | 0 <= i < |init| ensures init[i] != '.' {
          assert init[i] == ext[i];
        }
      }
      assert name[..|name| - 1] == stem + "." + init;
      assert name[|name| - 1] == ext[|ext| - 1];
      AfterLastDotOf(stem, init);
      assert init + [ext[|ext| - 1]] == ext;
    }
  }

  /** The extension of `stem.ext` is `ext`, lower-cased, whatever the stem holds. */
  lemma ExtensionOf(stem: string, ext: string)
    requires '.' !in ext
    ensures Extension(stem + "." + ext) == Lower(ext)
  {
    AfterLastDotOf(stem, ext);
  }

  /** Worked case: an upper-case extension is accepted. */
  lemma UpperCaseExample()
    ensures Dispatch("DATA.CSV") == CsvRoute
  {
    ExtensionOf("DATA", "CSV");
    assert "DATA" + "." + "CSV" == "DATA.CSV";
    assert Lower("CSV") == "csv";
  }

  /** Worked case: a bare "csv" (no dot) is its own extension and takes the CSV path. */
  lemma NoDotExample()
    ensures Dispatch("csv") == CsvRoute
  {
    NoDotWholeName("csv");
    assert Lower("csv") == "csv";
  }

  /** Worked cases: only the text after the last dot counts. */
  lemma DispatchLastDotExamples()
    ensures Dispatch("report.v2.xls") == XlsxRoute
    ensures Dispatch("clients.csv.bak") == UnsupportedRoute
  {
    ExtensionOf("report.v2", "xls");
    assert "report.v2" + "." + "xls" == "report.v2.xls";
    assert Lower("xls") == "xls";
    ExtensionOf("clients.csv", "bak");
    assert "clients.csv" + "." + "bak" == "clients.csv.bak";
    assert Lower("bak") == "bak";
  }

  /** What the CSV parser hands back: rows with its error list and header fields, or a failure. */
  datatype CsvOutcome =
    | CsvComplete(rows: seq<Record>, errors: seq<string>, fields: Option<seq<string>>)
    | CsvFailed(message: string)

  /** `parseCSV`: any reported error rejects; missing header fields read as []. */
  function ParseCsv(name: string, outcome: CsvOutcome): (r: Result<ParsedData, string>)
    ensures outcome.CsvFailed? ==> r == Err("CSV parsing failed: " + outcome.message)
    ensures outcome.CsvComplete? && outcome.errors != [] ==> r.Err?
    ensures r.Ok? <==> outcome.CsvComplete? && outcome.errors == []
    ensures r.Ok? ==> r.value == ParsedData(outcome.rows, outcome.fields.GetOr([]), name, Csv)
  {
    match outcome
    case CsvFailed(message) => Err("CSV parsing failed: " + message)
    case CsvComplete(rows, errors, fields) =>
      if |errors| > 0 then Err("CSV parsing errors: " + Join(errors, ", "))
      else Ok(ParsedData(rows, fields.GetOr([]), name, Csv))
  }

  /** The header row as property names: each cell as `String` renders it. */
  function HeaderRow(cells: seq<Cell>): (headers: seq<string>)
    ensures |headers| == |cells|
  {
    seq(|cells|, i requires 0 <= i < |cells| => CellString(cells[i]))
  }

  /** `row[j] || ''`: a truthy cell is kept, a missing or falsy one (0, false, "") becomes "". */
  function CellFor(row: seq<Cell>, j: nat): (v: Cell)
    ensures Truthy(v) || v == Str("")
    ensures j < |row| && Truthy(row[j]) ==> v == row[j]
    ensures !(j < |row| && Truthy(row[j])) ==> v == Str("")
  {
    if j < |row| && Truthy(row[j]) then row[j] else Str("")
  }

  /** The object after the first `n` headers have been assigned, in order. */
  function Fill(headers: seq<string>, row: seq<Cell>, n: nat): Record
    requires n <= |headers|
  {
    if n == 0 then [] else Set(Fill(headers, row, n - 1), headers[n - 1], CellFor(row, n - 1))
  }

  /** The record one data row becomes. */
  function RecordOf(headers: seq<string>, row: seq<Cell>): Record
  {
    Fill(headers, row, |headers|)
  }

  /** `headers.forEach((header, index) => { obj[header] = row[index] || '' })`. */
  method RowToRecord(headers: seq<string>, row: seq<Cell>) returns (obj: Record)
    ensures obj == RecordOf(headers, row)
  {
    obj := [];
    for index := 0 to |headers|
      invariant obj == Fill(headers, row, index)
    {
      obj := Set(obj, headers[index], CellFor(row, index));
    }
  }

  /** No property of a record is listed twice, whatever the headers repeat. */
  lemma {:induction false} FillWellFormed(headers: seq<string>, row: seq<Cell>, n: nat)
    requires n <= |headers|
    ensures WellFormed(Fill(headers, row, n))
  {
    if n > 0 {
      var prev := Fill(headers, row, n - 1);
      FillWellFormed(headers, row, n - 1);
      SetWellFormed(prev, headers[n - 1], CellFor(row, n - 1));
      assert Fill(headers, row, n) == Set(prev, headers[n - 1], CellFor(row, n - 1));
    }
  }

  /** The properties of a record are exactly its headers. */
  lemma {:induction false} FillKeys(headers: seq<string>, row: seq<Cell>, n: nat)
    requires n <= |headers|
    ensures forall k :: k in Keys(Fill(headers, row, n)) <==> k in headers[..n]
  {
    if n > 0 {
      var prev := Fill(headers, row, n - 1);
      var h := headers[n - 1];
      FillKeys(headers, row, n - 1);
      var ks := Keys(Set(prev, h, CellFor(row, n - 1)));
      SetKeys(prev, h, CellFor(row, n - 1));
      assert headers[..n] == headers[..n - 1] + [h];
      forall k ensures k in ks <==> k in headers[..n] {
        assert k in ks <==> k in Keys(prev) || k == h;
      }
    }
  }

  /** With duplicate headers the later column wins: a header's value comes from its last column. */
  lemma {:induction false} FillValue(headers: seq<string>, row: seq<Cell>, n: nat, j: nat)
    requires j < n <= |headers|
    requires forall j' :: j < j' < n ==> headers[j'] != headers[j]
    ensures Get(Fill(headers, row, n), headers[j]) == CellFor(row, j)
  {
    var prev := Fill(headers, row, n - 1);
    assert Fill(headers, row, n) == Set(prev, headers[n - 1], CellFor(row, n - 1));
    SetGet(prev, headers[n - 1], CellFor(row, n - 1));
    if j < n - 1 {
      assert headers[n - 1] != headers[j];
      FillValue(headers, row, n - 1, j);
    }
  }

  /** Each header maps to the cell of its last column, or "" when that cell is missing or falsy. */
  lemma RecordOfValue(headers: seq<string>, row: seq<Cell>, j: nat)
    requires j < |headers|
    requires forall j' :: j < j' < |headers| ==> headers[j'] != headers[j]
    ensures Get(RecordOf(headers, row), headers[j]) == CellFor(row, j)
    ensures j < |row| && Truthy(row[j]) ==> Get(RecordOf(headers, row), headers[j]) == row[j]
    ensures !(j < |row| && Truthy(row[j])) ==> Get(RecordOf(headers, row), headers[j]) == Str("")
  {
    FillValue(headers, row, |headers|, j);
  }

  /** With distinct headers the record's properties are the headers, in header order. */
  lemma {:induction false} FillKeysInOrder(headers: seq<string>, row: seq<Cell>, n: nat)
    requires n <= |headers|
    requires forall a, b :: 0 <= a < b < |headers| ==> headers[a] != headers[b]
    ensures Keys(Fill(headers, row, n)) == headers[..n]
  {
    if n > 0 {
      FillKeysInOrder(headers, row, n - 1);
      SetKeys(Fill(headers, row, n - 1), headers[n - 1], CellFor(row, n - 1));
      assert headers[n - 1] !in headers[..n - 1];
      assert headers[..n] == headers[..n - 1] + [headers[n - 1]];
    }
  }

  /** How the spreadsheet reader ended: the first sheet's rows, an exception from the library, or a read error. */
  datatype SheetRead = SheetLoaded(rows: seq<seq<Cell>>) | SheetThrew(message: string) | ReadFailed

  /** What `parseXLSX` settles with. */
  function XlsxOutcome(name: string, read: SheetRead): (r: Result<ParsedData, string>)
    ensures read.ReadFailed? ==> r == Err("Failed to read file")
    ensures read.SheetThrew? ==> r == Err("XLSX parsing failed: " + read.message)
    ensures read.SheetLoaded? && read.rows == [] ==> r == Err("Excel file is empty")
    ensures read.SheetLoaded? && read.rows != [] ==>
      && r.Ok? && r.value.fileName == name && r.value.fileType == Xlsx
      && r.value.headers == HeaderRow(read.rows[0])
      && |r.value.data| == |read.rows| - 1
      && forall i :: 0 <= i < |r.value.data| ==> r.value.data[i] == RecordOf(r.value.headers, read.rows[i + 1])
  {
    match read
    case ReadFailed => Err("Failed to read file")
    case SheetThrew(message) => Err("XLSX parsing failed: " + message)
    case SheetLoaded(rows) =>
      if |rows| == 0 then Err("Excel file is empty")
      else
        var headers := HeaderRow(rows[0]);
        Ok(ParsedData(seq(|rows| - 1, i requires 0 <= i < |rows| - 1 => RecordOf(headers, rows[i + 1])), headers, name, Xlsx))
  }

  /** `jsonData.slice(1).map(...)`: one record per data row, in order. */
  method RowsToRecords(headers: seq<string>, dataRows: seq<seq<Cell>>) returns (parsed: seq<Record>)
    ensures |parsed| == |dataRows|
    ensures forall k :: 0 <= k < |dataRows| ==> parsed[k] == RecordOf(headers, dataRows[k])
  {
    parsed := [];
    for i := 0 to |dataRows|
      invariant |parsed| == i
      invariant forall k :: 0 <= k < i ==> parsed[k] == RecordOf(headers, dataRows[k])
    {
      var obj := RowToRecord(headers, dataRows[i]);
      parsed := parsed + [obj];
    }
  }

  /** `parseXLSX`: the first row is the header, every later row becomes one record, in order. */
  method ParseXlsx(name: string, read: SheetRead) returns (r: Result<ParsedData, string>)
    ensures r == XlsxOutcome(name, read)
  {
    match read
    case ReadFailed =>
      r := Err("Failed to read file");
    case SheetThrew(message) =>
      r := Err("XLSX parsing failed: " + message);
    case SheetLoaded(rows) =>
      if |rows| == 0 {
        r := Err("Excel file is empty");
        return;
      }
      var headers := HeaderRow(rows[0]);
      var parsed := RowsToRecords(headers, rows[1..]);
      assert parsed == seq(|rows| - 1, i requires 0 <= i < |rows| - 1 => RecordOf(headers, rows[i + 1]));
      r := Ok(ParsedData(parsed, headers, name, Xlsx));
  }

  /** `parseFile`: dispatch on the extension, then the chosen parser's outcome; the type tag names the path taken. */
  method ParseFile(name: string, csv: CsvOutcome, sheet: SheetRead) returns (r: Result<ParsedData, string>)
    ensures Dispatch(name) == UnsupportedRoute ==> r == Err(UnsupportedMessage)
    ensures Dispatch(name) == CsvRoute ==> r == ParseCsv(name, csv)
    ensures Dispatch(name) == XlsxRoute ==> r == XlsxOutcome(name, sheet)
    ensures r.Ok? ==> r.value.fileName == name
    ensures r.Ok? ==> (r.value.fileType == Csv <==> Dispatch(name) == CsvRoute)
    ensures r.Ok? ==> (r.value.fileType == Xlsx <==> Dispatch(name) == XlsxRoute)
  {
    match Dispatch(name)
    case CsvRoute =>
      r := ParseCsv(name, csv);
    case XlsxRoute =>
      r := ParseXlsx(name, sheet);
    case UnsupportedRoute =>
      r := Err(UnsupportedMessage);
  }
}
