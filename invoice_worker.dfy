/** backend/worker.py: `extract_invoice_data` reads page 2 of an invoice PDF,
    `write_excel` writes the one-row workbook, and the command line ties the
    two together for the queue worker. */
module InvoiceWorker {
  import opened Common
  import opened Text
  import opened InvoiceText
  import opened BuyerAddress
  import opened InvoiceTables
  import opened Sheets

  /** What the PDF library yields for one page: the page text, the text inside
      the buyer crop box, and the tables (`None` text when a page has none). */
  datatype Page = Page(text: Option<string>, buyerText: Option<string>, tables: seq<Table>)

  /** The exceptions `extract_invoice_data` can raise. */
  datatype ExtractError =
    | CannotOpen      // `pdfplumber.open` fails: no such file, or not a PDF
    | NoSecondPage    // `pdf.pages[1]` raises IndexError on a one-page document
    | TableTypeError  // the table scan iterates a `None` row (`RowNotIterable`)

  /** The dictionary `extract_invoice_data` returns. */
  datatype Invoice = Invoice(invoiceNoDate: string, buyer: string, invoiceValue: string, exchangeRate: string)

  /** The dictionary's keys, in insertion order. */
  const InvoiceKeys: seq<string> := ["invoice_no_date", "buyer", "invoice_value", "exchange_rate"]

  /** The dictionary's values, in the same order as `InvoiceKeys`. */
  function InvoiceValues(inv: Invoice): seq<string> {
    [inv.invoiceNoDate, inv.buyer, inv.invoiceValue, inv.exchangeRate]
  }

  /** What page 2 of a document yields: its invoice fields, or the exception. */
  function InvoiceOf(pages: seq<Page>): Result<Invoice, ExtractError> {
    if |pages| < 2 then Err(NoSecondPage)
    else
      var page := pages[1];
      match ScanResult(page.tables)
      case Err(_) => Err(TableTypeError)
      case Ok(f) =>
        Ok(Invoice(InvoiceNoDate(FlatText(page.text)),
                   BuyerAddressOf(KeptLines(SplitLines(OrEmpty(page.buyerText)))),
                   f.invoiceValue, f.exchangeRate))
  }

  /** `extract_invoice_data(pdf_path)`, with `open` standing for the PDF
      library: the pages of the file at a path, or nothing when it cannot be read. */
  function ExtractResult(pdfPath: string, open: string -> Option<seq<Page>>): Result<Invoice, ExtractError> {
    match open(pdfPath)
    case None => Err(CannotOpen)
    case Some(pages) => InvoiceOf(pages)
  }

  /** The extraction fails exactly when there is no page 2 or its table scan
      hits a `None` value row; otherwise every field is "" or has the shape the
      code looks for: an "EXP-<digits> dd/mm/yyyy" token, a decimal invoice
      value, a stripped EUR/INR rate, and the kept buyer lines joined by spaces. */
  lemma InvoiceOfShape(pages: seq<Page>)
    ensures InvoiceOf(pages).Err? <==>
              |pages| < 2 || Crashes(pages[1].tables, |pages[1].tables|)
    ensures InvoiceOf(pages).Ok? ==>
              var inv := InvoiceOf(pages).value;
              && (inv.invoiceNoDate == "" || IsExpToken(inv.invoiceNoDate))
              && (inv.invoiceValue == "" || IsDecimal(inv.invoiceValue))
              && (inv.exchangeRate == "" || IsRateText(inv.exchangeRate))
              && inv.buyer == Join(" ", KeptLines(SplitLines(OrEmpty(pages[1].buyerText))))
  {
    if |pages| >= 2 {
      InvoiceNoDateShape(pages[1].text);
      ScanResultShape(pages[1].tables);
    }
  }

  /** Lines 10-104: the page-2 text, buyer box and tables, in that order. */
  method ExtractInvoiceData(pdfPath: string, open: string -> Option<seq<Page>>) returns (r: Result<Invoice, ExtractError>)
    ensures r == ExtractResult(pdfPath, open)
  {
    var pdf := open(pdfPath);
    if pdf.None? {
      return Err(CannotOpen);
    }
    var pages := pdf.value;
    if |pages| < 2 {
      return Err(NoSecondPage);
    }
    var page := pages[1];
    var flatText := FlatText(page.text);
    var invoiceNoDate := InvoiceNoDate(flatText);
    var buyerLines := CollectBuyerLines(page.buyerText);
    var buyerAddress := BuyerAddressOf(buyerLines);
    var scanned := ScanTables(page.tables);
    if scanned.Err? {
      return Err(TableTypeError);
    }
    return Ok(Invoice(invoiceNoDate, buyerAddress, scanned.value.invoiceValue, scanned.value.exchangeRate));
  }

  /** The header row of the single-invoice workbook. */
  const SingleHeader: seq<string> := ["SN", "Invoice No & Dt", "Buyers Name & Address", "Invoice Value", "Exchange Rate"]

  /** A data row: the serial number, then the four invoice fields as text. */
  function InvoiceRow(sn: int, inv: Invoice): seq<CellValue> {
    [Number(sn)] + StrCells(InvoiceValues(inv))
  }

  /** Reads a data row back: a serial number followed by four text cells. */
  function ReadInvoiceRow(row: seq<CellValue>): Option<(int, Invoice)> {
    if |row| == 5 && row[0].Number? && row[1].Str? && row[2].Str? && row[3].Str? && row[4].Str? then
      Some((row[0].n, Invoice(row[1].s, row[2].s, row[3].s, row[4].s)))
    else None
  }

  /** A written data row reads back as the serial number and the invoice, and
      lines up with the five header columns. */
  lemma InvoiceRowRoundTrip(sn: int, inv: Invoice)
    ensures |InvoiceRow(sn, inv)| == |SingleHeader|
    ensures ReadInvoiceRow(InvoiceRow(sn, inv)) == Some((sn, inv))
  {
    var row := InvoiceRow(sn, inv);
    assert row[1] == Str(inv.invoiceNoDate) && row[2] == Str(inv.buyer);
    assert row[3] == Str(inv.invoiceValue) && row[4] == Str(inv.exchangeRate);
  }

  /** The workbook `write_excel` leaves at a path for one invoice. */
  function SingleWorkbook(outputPath: string, data: Invoice): SavedWorkbook {
    SavedWorkbook(outputPath, "Invoices", [StrCells(SingleHeader), InvoiceRow(1, data)])
  }

  /** `write_excel(output_path, data)`: a sheet titled "Invoices" with the
      header row and the invoice as row 1, saved at the path. */
  method WriteExcel(outputPath: string, data: Invoice) returns (saved: SavedWorkbook)
    ensures saved == SingleWorkbook(outputPath, data)
    ensures |saved.rows| == 2 && ReadInvoiceRow(saved.rows[1]) == Some((1, data))
  {
    var ws := new Worksheet();
    ws.SetTitle("Invoices");
    ws.Append(StrCells(SingleHeader));
    ws.Append(InvoiceRow(1, data));
    saved := ws.Saved(outputPath);
    InvoiceRowRoundTrip(1, data);
  }

  /** The outcome of `python worker.py ...`: the exit status, the workbook it
      saved, and the lines it printed. */
  datatype CliRun = CliRun(exitCode: int, saved: Option<SavedWorkbook>, stdout: seq<string>)

  const UsageLine: string := "Usage: python worker.py <input.pdf> <output.xlsx>"

  /** The four `print` calls after a successful run. */
  function SummaryLines(inv: Invoice): seq<string> {
    ["Invoice No & Dt: " + inv.invoiceNoDate, "Buyer: " + inv.buyer,
     "Invoice Value: " + inv.invoiceValue, "Exchange Rate: " + inv.exchangeRate]
  }

  /** Lines 137-151, with `argv` as `sys.argv` (the script name first): fewer
      than two arguments print the usage and exit with 1; an exception during
      extraction ends the interpreter with 1 before anything is saved. */
  function CliResult(argv: seq<string>, open: string -> Option<seq<Page>>): CliRun {
    if |argv| < 3 then CliRun(1, None, [UsageLine])
    else
      match ExtractResult(argv[1], open)
      case Err(_) => CliRun(1, None, [])
      case Ok(inv) => CliRun(0, Some(SingleWorkbook(argv[2], inv)), SummaryLines(inv))
  }

  /** The command-line entry point. */
  method RunCli(argv: seq<string>, open: string -> Option<seq<Page>>) returns (run: CliRun)
    ensures run == CliResult(argv, open)
    ensures run.exitCode == 0 <==> |argv| >= 3 && ExtractResult(argv[1], open).Ok?
    ensures run.exitCode != 0 ==> run.exitCode == 1 && run.saved == None
    ensures run.exitCode == 0 ==>
              && run.saved.Some? && run.saved.value.path == argv[2]
              && ReadInvoiceRow(run.saved.value.rows[1]) == Some((1, ExtractResult(argv[1], open).value))
  {
    if |argv| < 3 {
      return CliRun(1, None, [UsageLine]);
    }
    var pdfPath := argv[1];
    var outputExcel := argv[2];
    var data := ExtractInvoiceData(pdfPath, open);
    if data.Err? {
      return CliRun(1, None, []);
    }
    var saved := WriteExcel(outputExcel, data.value);
    return CliRun(0, Some(saved), SummaryLines(data.value));
  }
}
