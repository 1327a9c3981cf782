/** backend/batch_worker.py: `run_batch` extracts every PDF in the upload
    directory, in name order, into one workbook with a row per invoice that
    could be read. The directory listing and the PDF library are inputs. */
module BatchWorker {
  import opened Common
  import opened Text
  import opened Sheets
  import opened NameOrder
  import opened InvoiceWorker

  const UploadDir: string := "uploads"
  const OutputExcel: string := "results/invoices.xlsx"

  /** The header row, written once before any data row. */
  const BatchHeader: seq<string> :=
    ["SN", "Invoice No & Dt", "Buyers Name & Address", "Invoice value", "Exchange Rate", "Source File"]

  /** The last four characters, lower-cased, are ".pdf". */
  predicate IsPdfName(name: string) {
    var n := |name|;
    n >= 4 && LowerChar(name[n - 4]) == '.' && LowerChar(name[n - 3]) == 'p'
    && LowerChar(name[n - 2]) == 'd' && LowerChar(name[n - 1]) == 'f'
  }

  /** `IsPdfName` is line 28's `filename.lower().endswith(".pdf")`. */
  lemma IsPdfNameLower(name: string)
    ensures IsPdfName(name) <==> EndsWith(Lower(name), ".pdf")
  {
    var n, low := |name|, Lower(name);
    if n >= 4 {
      var tail := low[n - 4..];
      assert tail[0] == LowerChar(name[n - 4]) && tail[1] == LowerChar(name[n - 3]);
      assert tail[2] == LowerChar(name[n - 2]) && tail[3] == LowerChar(name[n - 1]);
      if IsPdfName(name) {
        assert tail == ".pdf";
      }
    }
  }

  /** `os.path.join(UPLOAD_DIR, filename)` for a name from the listing. */
  function PdfPath(name: string): string {
    UploadDir + "/" + name
  }

  /** The invoice row the loop means to append: the serial number, the four
      fields, and the file name. */
  function BatchRow(sn: int, inv: Invoice, filename: string): seq<CellValue> {
    [Number(sn)] + StrCells(InvoiceValues(inv)) + [Str(filename)]
  }

  /** Reads a row back as a serial number, an invoice and a file name. */
  function ReadBatchRow(row: seq<CellValue>): Option<(int, Invoice, string)> {
    if |row| == 6 && row[0].Number? && row[1].Str? && row[2].Str? && row[3].Str? && row[4].Str? && row[5].Str? then
      Some((row[0].n, Invoice(row[1].s, row[2].s, row[3].s, row[4].s), row[5].s))
    else None
  }

  /** A row lines up with the six header columns and reads back as what it was made of. */
  lemma BatchRowRoundTrip(sn: int, inv: Invoice, filename: string)
    ensures |BatchRow(sn, inv, filename)| == |BatchHeader|
    ensures ReadBatchRow(BatchRow(sn, inv, filename)) == Some((sn, inv, filename))
  {
    var row := BatchRow(sn, inv, filename);
    assert row[1] == Str(inv.invoiceNoDate) && row[2] == Str(inv.buyer);
    assert row[3] == Str(inv.invoiceValue) && row[4] == Str(inv.exchangeRate);
    assert row[5] == Str(filename);
  }

  /** Line 35 as written: unpacking the returned dictionary into four names
      iterates it, which yields its keys, whatever the invoice holds. */
  function Unpacked(inv: Invoice): seq<string> {
    InvoiceKeys
  }

  /** The row lines 37-44 append as written. */
  function AsWrittenRow(sn: int, inv: Invoice, filename: string): seq<CellValue> {
    [Number(sn)] + StrCells(Unpacked(inv)) + [Str(filename)]
  }

  /** The invoice whose fields are the dictionary's key names. */
  const KeyNames: Invoice := Invoice("invoice_no_date", "buyer", "invoice_value", "exchange_rate")

  /** As written, every row reads back with the key names in place of the
      invoice, so it agrees with the intended row only for an invoice whose
      fields are those names. */
  lemma AsWrittenRowHoldsKeyNames(sn: int, inv: Invoice, filename: string)
    ensures ReadBatchRow(AsWrittenRow(sn, inv, filename)) == Some((sn, KeyNames, filename))
    ensures AsWrittenRow(sn, inv, filename) == BatchRow(sn, inv, filename) <==> inv == KeyNames
  {
    assert AsWrittenRow(sn, inv, filename) == BatchRow(sn, KeyNames, filename);
    BatchRowRoundTrip(sn, KeyNames, filename);
    BatchRowRoundTrip(sn, inv, filename);
  }

  /** `extract_invoice_data` on the PDF library `open`, as a function of the path. */
  function Extractor(open: string -> Option<seq<Page>>): string -> Result<Invoice, ExtractError> {
    path => ExtractResult(path, open)
  }

  /** What the loop body does with one listed name: nothing for a name that is
      not a PDF or whose extraction raises, the name and its invoice otherwise. */
  function Attempt(extract: string -> Result<Invoice, ExtractError>, name: string): Option<(string, Invoice)> {
    if !IsPdfName(name) then None
    else
      match extract(PdfPath(name))
      case Err(_) => None
      case Ok(inv) => Some((name, inv))
  }

  function Attempter(extract: string -> Result<Invoice, ExtractError>): string -> Option<(string, Invoice)> {
    name => Attempt(extract, name)
  }

  /** The files that make it into the workbook, with their invoices, in the order processed. */
  function Processed(listing: seq<string>, extract: string -> Result<Invoice, ExtractError>): seq<(string, Invoice)> {
    Gather(SortNames(listing), Attempter(extract))
  }

  /** Which row the loop appends: the one lines 37-44 build as written, or
      the one they evidently mean. */
  datatype RowLayout = AsWritten | Intended

  /** The row appended for a serial number, an invoice and a file name. */
  function LayoutRow(layout: RowLayout, sn: int, inv: Invoice, filename: string): seq<CellValue> {
    match layout
    case AsWritten => AsWrittenRow(sn, inv, filename)
    case Intended => BatchRow(sn, inv, filename)
  }

  /** The invoice a row reads back with: the key names as written, the invoice itself as intended. */
  function Recorded(layout: RowLayout, inv: Invoice): Invoice {
    match layout
    case AsWritten => KeyNames
    case Intended => inv
  }

  /** Under either layout a row has the six header columns and reads back as
      its serial number, the recorded invoice and its file name. */
  lemma LayoutRowRead(layout: RowLayout, sn: int, inv: Invoice, filename: string)
    ensures |LayoutRow(layout, sn, inv, filename)| == |BatchHeader|
    ensures LayoutRow(layout, sn, inv, filename)[0].Number?
    ensures ReadBatchRow(LayoutRow(layout, sn, inv, filename)) == Some((sn, Recorded(layout, inv), filename))
  {
    BatchRowRoundTrip(sn, inv, filename);
    BatchRowRoundTrip(sn, KeyNames, filename);
    AsWrittenRowHoldsKeyNames(sn, inv, filename);
  }

  /** The data rows: the k-th processed file gets serial number k + 1. */
  function DataRows(done: seq<(string, Invoice)>, layout: RowLayout): seq<seq<CellValue>> {
    seq(|done|, k requires 0 <= k < |done| => LayoutRow(layout, k + 1, done[k].1, done[k].0))
  }

  /** One more processed file adds one row, numbered after the others. */
  lemma DataRowsAppend(done: seq<(string, Invoice)>, x: (string, Invoice), layout: RowLayout)
    ensures DataRows(done + [x], layout) == DataRows(done, layout) + [LayoutRow(layout, |done| + 1, x.1, x.0)]
  {
    var a, b := DataRows(done + [x], layout), DataRows(done, layout) + [LayoutRow(layout, |done| + 1, x.1, x.0)];
    assert |a| == |b|;
    forall k | 0 <= k < |a|
      ensures a[k] == b[k]
    {
      if k < |done| {
        assert (done + [x])[k] == done[k];
      }
    }
  }

  /** The sheet's rows: the header, then the data rows. */
  function SheetRows(done: seq<(string, Invoice)>, layout: RowLayout): seq<seq<CellValue>> {
    [StrCells(BatchHeader)] + DataRows(done, layout)
  }

  /** One more processed file puts its row at the bottom of the sheet. */
  lemma SheetRowsAppend(done: seq<(string, Invoice)>, x: (string, Invoice), layout: RowLayout)
    ensures SheetRows(done + [x], layout) == SheetRows(done, layout) + [LayoutRow(layout, |done| + 1, x.1, x.0)]
  {
    DataRowsAppend(done, x, layout);
  }

  /** The workbook `run_batch` saves for a listing of the upload directory. */
  function BatchWorkbook(listing: seq<string>, extract: string -> Result<Invoice, ExtractError>, layout: RowLayout): SavedWorkbook {
    SavedWorkbook(OutputExcel, "Invoices", SheetRows(Processed(listing, extract), layout))
  }

  /** Lines 10-51, `listing` as `os.listdir(UPLOAD_DIR)` and `extract` as the
      imported `extract_invoice_data`, which is `Extractor(open)` for a PDF
      library `open`. With `AsWritten` the loop appends the row lines 37-44
      build; with `Intended`, the row they mean. */
  method RunBatch(listing: seq<string>, extract: string -> Result<Invoice, ExtractError>, layout: RowLayout)
    returns (saved: SavedWorkbook)
    ensures saved == BatchWorkbook(listing, extract, layout)
  {
    var ws := new Worksheet();
    ws.SetTitle("Invoices");
    ws.Append(StrCells(BatchHeader));
    var sn := 1;
    var names := SortNames(listing);
    ghost var f := Attempter(extract);
    ghost var done: seq<(string, Invoice)> := [];
    for i := 0 to |names|
      invariant done == Gather(names[..i], f)
      invariant sn == |done| + 1
      invariant ws.title == "Invoices" && ws.rows == SheetRows(done, layout)
    {
      GatherStep(names, i, f);
      var filename := names[i];
      if !IsPdfName(filename) {
        assert f(filename) == None;
        continue;
      }
      var pdfPath := PdfPath(filename);
      var data := extract(pdfPath);
      if data.Err? {
        assert f(filename) == None;
        continue;
      }
      assert f(filename) == Some((filename, data.value));
      SheetRowsAppend(done, (filename, data.value), layout);
      ws.Append(LayoutRow(layout, sn, data.value, filename));
      done := done + [(filename, data.value)];
      sn := sn + 1;
    }
    assert names[..|names|] == names;
    saved := ws.Saved(OutputExcel);
  }

  /** Each data row reads back as its serial number, the recorded invoice and
      the file name: as written the key names, as intended the extracted invoice. */
  lemma DataRowsRead(done: seq<(string, Invoice)>, layout: RowLayout)
    ensures forall k :: 0 <= k < |done| ==>
              DataRows(done, layout)[k][0].Number?
              && ReadBatchRow(DataRows(done, layout)[k]) == Some((k + 1, Recorded(layout, done[k].1), done[k].0))
  {
    forall k | 0 <= k < |done|
      ensures DataRows(done, layout)[k][0].Number?
              && ReadBatchRow(DataRows(done, layout)[k]) == Some((k + 1, Recorded(layout, done[k].1), done[k].0))
    {
      LayoutRowRead(layout, k + 1, done[k].1, done[k].0);
    }
  }

  /** Below the header, row k is the data row of the k-th processed file, and
      none of them equals the header. */
  lemma HeaderThenRows(done: seq<(string, Invoice)>, layout: RowLayout)
    ensures var all := [StrCells(BatchHeader)] + DataRows(done, layout);
      && |all| == |done| + 1
      && (forall k :: 1 <= k < |all| ==> all[k] != all[0])
      && (forall k :: 0 <= k < |done| ==> ReadBatchRow(all[k + 1]) == Some((k + 1, Recorded(layout, done[k].1), done[k].0)))
  {
    var rows := DataRows(done, layout);
    var all: seq<seq<CellValue>> := [StrCells(BatchHeader)] + rows;
    DataRowsRead(done, layout);
    assert all[0][0].Str?;
    forall k | 1 <= k < |all|
      ensures all[k] != all[0]
    {
      assert all[k] == rows[k - 1];
    }
    forall k | 0 <= k < |done|
      ensures ReadBatchRow(all[k + 1]) == Some((k + 1, Recorded(layout, done[k].1), done[k].0))
    {
      assert all[k + 1] == rows[k];
    }
  }

  /** The saved workbook has the header once, at the top, then one row per
      processed file, numbered 1, 2, ... in the order processed; as written
      each of them holds the key names, as intended the file's invoice. */
  lemma BatchRowsRead(listing: seq<string>, extract: string -> Result<Invoice, ExtractError>, layout: RowLayout)
    ensures var wb := BatchWorkbook(listing, extract, layout);
      var done := Processed(listing, extract);
      && wb.path == OutputExcel && wb.title == "Invoices"
      && |wb.rows| == |done| + 1 && |done| <= |listing|
      && wb.rows[0] == StrCells(BatchHeader)
      && (forall k :: 1 <= k < |wb.rows| ==> wb.rows[k] != wb.rows[0])
      && (layout == AsWritten ==> forall k :: 0 <= k < |done| ==>
            ReadBatchRow(wb.rows[k + 1]) == Some((k + 1, KeyNames, done[k].0)))
      && (layout == Intended ==> forall k :: 0 <= k < |done| ==>
            ReadBatchRow(wb.rows[k + 1]) == Some((k + 1, done[k].1, done[k].0)))
  {
    var done := Processed(listing, extract);
    SortNamesSpec(listing);
    HeaderThenRows(done, layout);
  }

  /** Every processed file is a listed PDF name whose extraction gave the
      invoice in its row. */
  lemma ProcessedQualify(listing: seq<string>, extract: string -> Result<Invoice, ExtractError>)
    ensures var done := Processed(listing, extract);
      forall k :: 0 <= k < |done| ==>
        done[k].0 in listing && IsPdfName(done[k].0) && extract(PdfPath(done[k].0)) == Ok(done[k].1)
  {
    var names, f := SortNames(listing), Attempter(extract);
    SortNamesSpec(listing);
    GatherExactly(names, f);
    var done, idx := Processed(listing, extract), GatherIndices(names, f);
    forall k | 0 <= k < |done|
      ensures done[k].0 in listing && IsPdfName(done[k].0) && extract(PdfPath(done[k].0)) == Ok(done[k].1)
    {
      assert f(names[idx[k]]) == Some(done[k]);
      assert names[idx[k]] in names;
    }
  }

  /** Files are processed in `sorted` order. */
  lemma ProcessedInNameOrder(listing: seq<string>, extract: string -> Result<Invoice, ExtractError>)
    ensures var done := Processed(listing, extract);
      forall k, m :: 0 <= k < m < |done| ==> Le(done[k].0, done[m].0)
  {
    var names, f := SortNames(listing), Attempter(extract);
    SortNamesSpec(listing);
    GatherExactly(names, f);
    var done, idx := Processed(listing, extract), GatherIndices(names, f);
    forall k, m | 0 <= k < m < |done|
      ensures Le(done[k].0, done[m].0)
    {
      assert f(names[idx[k]]) == Some(done[k]) && f(names[idx[m]]) == Some(done[m]);
    }
  }

  /** No listed PDF whose extraction succeeds is left out. */
  lemma ProcessedComplete(listing: seq<string>, extract: string -> Result<Invoice, ExtractError>)
    ensures var done := Processed(listing, extract);
      forall name :: name in listing && IsPdfName(name) && extract(PdfPath(name)).Ok? ==>
        exists k :: 0 <= k < |done| && done[k].0 == name
  {
    var names, f := SortNames(listing), Attempter(extract);
    SortNamesSpec(listing);
    GatherExactly(names, f);
    var done, idx := Processed(listing, extract), GatherIndices(names, f);
    forall name | name in listing && IsPdfName(name) && extract(PdfPath(name)).Ok?
      ensures exists k :: 0 <= k < |done| && done[k].0 == name
    {
      assert name in names;
      var i :| 0 <= i < |names| && names[i] == name;
      assert f(names[i]).Some?;
      var k :| 0 <= k < |idx| && idx[k] == i;
      assert f(names[idx[k]]) == Some(done[k]);
    }
  }

  /** With nothing readable in the directory the workbook is still saved, with the header alone. */
  lemma EmptyBatch(listing: seq<string>, extract: string -> Result<Invoice, ExtractError>, layout: RowLayout)
    requires forall name :: name in listing ==> Attempt(extract, name).None?
    ensures BatchWorkbook(listing, extract, layout).rows == [StrCells(BatchHeader)]
  {
    var names := SortNames(listing);
    SortNamesSpec(listing);
    assert forall i :: 0 <= i < |names| ==> names[i] in listing;
    GatherNone(names, Attempter(extract));
  }
}
