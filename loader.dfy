/**
 * `backend/app/utils/loader.py`: turns an uploaded file into LangChain
 * documents according to its extension. A text file is one document; a PDF
 * gives one document per page that holds more than whitespace; a CSV gives
 * one document per row, listing each column with its value. Every document
 * records the file's base name as its source.
 *
 * The file system and the PDF and CSV parsers are not modelled: a `Disk`
 * says what reading a path yields.
 */
module Loader {
  import opened Wrappers
  import opened Text
  import opened Schema

  /** A CSV file as pandas reads it: column names, and rows of printed cell values. */
  datatype Table = Table(columns: seq<string>, rows: seq<seq<string>>)

  /** Every row has one cell per column. */
  predicate Rectangular(t: Table) {
    forall i :: 0 <= i < |t.rows| ==> |t.rows[i]| == |t.columns|
  }

  type Csv = t: Table | Rectangular(t) witness Table([], [])

  /** What reading a path yields: its text, the text of each PDF page, its CSV table. */
  datatype Disk = Disk(text: string -> string, pages: string -> seq<string>, table: string -> Csv)

  datatype FileKind = TxtFile | PdfFile | CsvFile

  datatype LoadError = UnsupportedFileType(message: string)

  /** The extensions `load_file` has a loader for. */
  predicate Supported(ext: string) {
    ext == ".txt" || ext == ".pdf" || ext == ".csv"
  }

  /** `os.path.splitext(file_path)[1].lower()`. */
  function Extension(path: string): string {
    Lower(SplitExt(path).1)
  }

  /** The loader `load_file` dispatches to, if the extension is supported. */
  function Kind(path: string): Option<FileKind> {
    var ext := Extension(path);
    if ext == ".txt" then Some(TxtFile)
    else if ext == ".pdf" then Some(PdfFile)
    else if ext == ".csv" then Some(CsvFile)
    else None
  }

  /** Two extensions that differ only in letter case dispatch alike: `.TXT` is read as `.txt`. */
  lemma KindIgnoresCase(p: string, q: string)
    requires |SplitExt(p).1| == |SplitExt(q).1|
    requires forall i :: 0 <= i < |SplitExt(p).1| ==> LowerChar(SplitExt(p).1[i]) == LowerChar(SplitExt(q).1[i])
    ensures Kind(p) == Kind(q)
  {
    var e, f := SplitExt(p).1, SplitExt(q).1;
    forall i | 0 <= i < |e|
      ensures Lower(e)[i] == Lower(f)[i]
    {
    }
    assert Lower(e) == Lower(f);
    assert Extension(p) == Extension(q);
  }

  // ---------------------------------------------------------------------------
  // Text files

  /** `load_txt(file_path)`: the whole text as one document. */
  function LoadTxt(disk: Disk, path: string): (docs: seq<Document>)
    ensures |docs| == 1
    ensures docs[0].pageContent == disk.text(path) && docs[0].source == Basename(path)
  {
    [Document(disk.text(path), Basename(path), Whole)]
  }

  // ---------------------------------------------------------------------------
  // PDF files

  /** The documents of the non-blank pages, each with its 1-based page number. */
  function PdfDocuments(pages: seq<string>, source: string): seq<Document>
    decreases |pages|
  {
    if |pages| == 0 then []
    else
      var n := |pages| - 1;
      var earlier := PdfDocuments(pages[..n], source);
      if HasText(Python, pages[n]) then earlier + [Document(pages[n], source, Page(n + 1))] else earlier
  }

  /** `d` is the document of a non-blank page of `pages`, read from `source`. */
  predicate IsPageDocument(d: Document, pages: seq<string>, source: string) {
    d.source == source && d.locator.Page? && 1 <= d.locator.page <= |pages|
    && d.pageContent == pages[d.locator.page - 1] && HasText(Python, d.pageContent)
  }

  /** Each document is a non-blank page, and the pages come in increasing order. */
  lemma {:induction false} PdfDocumentsSound(pages: seq<string>, source: string)
    ensures var r := PdfDocuments(pages, source);
      |r| <= |pages|
      && (forall k :: 0 <= k < |r| ==> IsPageDocument(r[k], pages, source))
      && (forall j, k :: 0 <= j < k < |r| ==> r[j].locator.page < r[k].locator.page)
    decreases |pages|
  {
    if |pages| > 0 {
      var n := |pages| - 1;
      var earlier := PdfDocuments(pages[..n], source);
      PdfDocumentsSound(pages[..n], source);
      forall k | 0 <= k < |earlier|
        ensures IsPageDocument(earlier[k], pages, source)
      {
        assert IsPageDocument(earlier[k], pages[..n], source);
        assert pages[..n][earlier[k].locator.page - 1] == pages[earlier[k].locator.page - 1];
      }
    }
  }

  lemma {:induction false} PdfDocumentsSource(pages: seq<string>, source: string)
    ensures forall k :: 0 <= k < |PdfDocuments(pages, source)| ==> PdfDocuments(pages, source)[k].source == source
    decreases |pages|
  {
    if |pages| > 0 {
      var n := |pages| - 1;
      PdfDocumentsSource(pages[..n], source);
      var earlier := PdfDocuments(pages[..n], source);
      if HasText(Python, pages[n]) {
        var r := earlier + [Document(pages[n], source, Page(n + 1))];
        assert PdfDocuments(pages, source) == r;
        forall k | 0 <= k < |r|
          ensures r[k].source == source
        {
          if k < |earlier| {
            assert r[k] == earlier[k];
          }
        }
      } else {
        assert PdfDocuments(pages, source) == earlier;
      }
    }
  }

  /** Every page with more than whitespace has its document. */
  lemma {:induction false} PdfDocumentsComplete(pages: seq<string>, source: string, i: nat)
    requires i < |pages| && HasText(Python, pages[i])
    ensures Document(pages[i], source, Page(i + 1)) in PdfDocuments(pages, source)
    decreases |pages|
  {
    var n := |pages| - 1;
    var d := Document(pages[i], source, Page(i + 1));
    var earlier := PdfDocuments(pages[..n], source);
    if i < n {
      assert pages[..n][i] == pages[i];
      PdfDocumentsComplete(pages[..n], source, i);
      assert d in earlier;
      assert PdfDocuments(pages, source) == earlier || PdfDocuments(pages, source) == earlier + [Document(pages[n], source, Page(n + 1))];
    } else {
      assert PdfDocuments(pages, source) == earlier + [d];
    }
  }

  /** One more page adds its document if it has text, and nothing otherwise. */
  lemma PdfDocumentsStep(pages: seq<string>, source: string, n: nat)
    requires n < |pages|
    ensures PdfDocuments(pages[..n + 1], source)
      == PdfDocuments(pages[..n], source)
         + if HasText(Python, pages[n]) then [Document(pages[n], source, Page(n + 1))] else []
  {
    var prefix := pages[..n + 1];
    assert prefix[..n] == pages[..n];
    assert prefix[n] == pages[n];
  }

  /** `load_pdf(file_path)`. */
  method LoadPdf(disk: Disk, path: string) returns (documents: seq<Document>)
    ensures documents == PdfDocuments(disk.pages(path), Basename(path))
  {
    var pages := disk.pages(path);
    var source := Basename(path);
    documents := [];
    for pageNum := 0 to |pages|
      invariant documents == PdfDocuments(pages[..pageNum], source)
    {
      PdfDocumentsStep(pages, source, pageNum);
      var text := pages[pageNum];
      if HasText(Python, text) {
        documents := documents + [Document(text, source, Page(pageNum + 1))];
      }
    }
    assert pages[..|pages|] == pages;
  }

  // ---------------------------------------------------------------------------
  // CSV files

  /** The `"col: value"` line of each column, in column order. */
  function CellLines(columns: seq<string>, cells: seq<string>): (lines: seq<string>)
    requires |cells| == |columns|
    ensures |lines| == |columns|
    ensures forall i :: 0 <= i < |lines| ==> lines[i] == columns[i] + ": " + cells[i]
  {
    seq(|columns|, i requires 0 <= i < |columns| => columns[i] + ": " + cells[i])
  }

  /** The text of one row: its cell lines joined by newlines. */
  function RowText(columns: seq<string>, cells: seq<string>): string
    requires |cells| == |columns|
  {
    Join(CellLines(columns, cells), "\n")
  }

  /** The documents of the rows, each with its 1-based row number. */
  function CsvDocuments(table: Csv, source: string): (r: seq<Document>)
    ensures |r| == |table.rows|
    ensures forall i :: 0 <= i < |r| ==> r[i].source == source && r[i].locator == Row(i + 1)
  {
    seq(|table.rows|, i requires 0 <= i < |table.rows| =>
      Document(RowText(table.columns, table.rows[i]), source, Row(i + 1)))
  }

  /** Each column's name and value appear, as one line, in the row's document. */
  lemma CsvCellAppears(table: Csv, source: string, i: nat, c: nat)
    requires i < |table.rows| && c < |table.columns|
    ensures IsInfix(table.columns[c] + ": " + table.rows[i][c], CsvDocuments(table, source)[i].pageContent)
  {
    JoinContains(CellLines(table.columns, table.rows[i]), "\n", c);
  }

  /** A row's document starts with its first column's line. */
  lemma CsvRowStartsWithFirstColumn(table: Csv, source: string, i: nat)
    requires i < |table.rows| && |table.columns| > 0
    ensures IsPrefix(table.columns[0] + ": " + table.rows[i][0], CsvDocuments(table, source)[i].pageContent)
  {
    JoinStartsWith(CellLines(table.columns, table.rows[i]), "\n");
  }

  /** The document of row i is the row's text, numbered i + 1. */
  lemma CsvDocumentAt(table: Csv, source: string, i: nat)
    requires i < |table.rows|
    ensures CsvDocuments(table, source)[i] == Document(RowText(table.columns, table.rows[i]), source, Row(i + 1))
  {
  }

  /** Extending a prefix of the documents by one takes the next document. */
  lemma PrefixGrows(docs: seq<Document>, n: nat)
    requires n < |docs|
    ensures docs[..n + 1] == docs[..n] + [docs[n]]
  {
  }

  /** `load_csv(file_path)`. */
  method LoadCsv(disk: Disk, path: string) returns (documents: seq<Document>)
    ensures documents == CsvDocuments(disk.table(path), Basename(path))
  {
    var table := disk.table(path);
    var source := Basename(path);
    ghost var all := CsvDocuments(table, source);
    documents := [];
    for index := 0 to |table.rows|
      invariant documents == all[..index]
    {
      var rowText := RowText(table.columns, table.rows[index]);
      CsvDocumentAt(table, source, index);
      documents := documents + [Document(rowText, source, Row(index + 1))];
      PrefixGrows(all, index);
    }
    assert all[..|all|] == all;
  }

  // ---------------------------------------------------------------------------
  // Dispatch

  /** What `load_file(file_path)` returns or raises. */
  function FileDocuments(disk: Disk, path: string): (r: Result<seq<Document>, LoadError>)
    ensures r.Failure? <==> !Supported(Extension(path))
    ensures r.Failure? ==> r.error == UnsupportedFileType("Unsupported file type: " + Extension(path))
  {
    match Kind(path)
    case Some(TxtFile) => Success(LoadTxt(disk, path))
    case Some(PdfFile) => Success(PdfDocuments(disk.pages(path), Basename(path)))
    case Some(CsvFile) => Success(CsvDocuments(disk.table(path), Basename(path)))
    case None => Failure(UnsupportedFileType("Unsupported file type: " + Extension(path)))
  }

  /** Every document loaded from a path names the path's base name as its source. */
  lemma FileDocumentsSource(disk: Disk, path: string)
    requires FileDocuments(disk, path).Success?
    ensures var docs := FileDocuments(disk, path).value;
      forall k :: 0 <= k < |docs| ==> docs[k].source == Basename(path)
  {
    var source := Basename(path);
    match Kind(path)
    case Some(TxtFile) =>
      assert FileDocuments(disk, path).value == LoadTxt(disk, path);
    case Some(PdfFile) =>
      assert FileDocuments(disk, path).value == PdfDocuments(disk.pages(path), source);
      PdfDocumentsSource(disk.pages(path), source);
    case Some(CsvFile) =>
      assert FileDocuments(disk, path).value == CsvDocuments(disk.table(path), source);
  }

  /** `load_file(file_path)`. */
  method LoadFile(disk: Disk, path: string) returns (r: Result<seq<Document>, LoadError>)
    ensures r == FileDocuments(disk, path)
  {
    var ext := Extension(path);
    if ext == ".txt" {
      r := Success(LoadTxt(disk, path));
      assert Kind(path) == Some(TxtFile);
      assert FileDocuments(disk, path) == Success(LoadTxt(disk, path));
    } else if ext == ".pdf" {
      var documents := LoadPdf(disk, path);
      r := Success(documents);
      assert Kind(path) == Some(PdfFile);
      assert FileDocuments(disk, path) == Success(PdfDocuments(disk.pages(path), Basename(path)));
    } else if ext == ".csv" {
      var documents := LoadCsv(disk, path);
      r := Success(documents);
      assert Kind(path) == Some(CsvFile);
      assert FileDocuments(disk, path) == Success(CsvDocuments(disk.table(path), Basename(path)));
    } else {
      r := Failure(UnsupportedFileType("Unsupported file type: " + ext));
      assert Kind(path) == None;
      assert FileDocuments(disk, path) == Failure(UnsupportedFileType("Unsupported file type: " + ext));
    }
  }
}
