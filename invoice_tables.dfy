/** The table part of `extract_invoice_data` in backend/worker.py: every row of
    every table on the page is scanned for the invoice value (in the row after
    an "INVOICE VALUE" row) and for the EUR/INR exchange rate. */
module InvoiceTables {
  import opened Common
  import opened Text

  /** A cell as the PDF library reports it: text, or `None` for an empty cell. */
  type Cell = Option<string>

  /** A row: its cells, or `None`; the code skips both `None` and `[]`. */
  type Row = Option<seq<Cell>>

  type Table = seq<Row>

  /** The two figures the scan produces, each "" until found. */
  datatype Figures = Figures(invoiceValue: string, exchangeRate: string)

  /** `for cell in value_row` raises a TypeError when the row after an
      "INVOICE VALUE" row is `None`. */
  datatype ScanError = RowNotIterable

  /** `re.fullmatch(r"\d+(\.\d+)?", s)`: digits, optionally followed by a dot
      and more digits, and nothing else. */
  predicate IsDecimal(s: string) {
    var n := DigitRun(s, 0);
    n >= 1 && (n == |s| || (s[n] == '.' && n + 1 < |s| && n + 1 + DigitRun(s, n + 1) == |s|))
  }

  /** `cell and re.fullmatch(r"\d+(\.\d+)?", cell.strip())`. */
  predicate IsValueCell(c: Cell) {
    c.Some? && c.value != "" && IsDecimal(Strip(c.value))
  }

  /** `cell and "EUR" in cell and "INR" in cell`: case-sensitive, on the raw cell. */
  predicate IsRateCell(c: Cell) {
    c.Some? && c.value != "" && Contains(c.value, "EUR") && Contains(c.value, "INR")
  }

  /** What an exchange-rate assignment can produce: text mentioning "EUR" and
      "INR" with no whitespace at either end. */
  predicate IsRateText(s: string) {
    s != [] && Contains(s, "EUR") && Contains(s, "INR") && !IsSpace(s[0]) && !IsSpace(s[|s| - 1])
  }

  /** Stripping a rate cell keeps both currency codes. */
  lemma RateTextOfCell(s: string)
    requires Contains(s, "EUR") && Contains(s, "INR")
    ensures IsRateText(Strip(s))
  {
    StripKeeps(s, "EUR");
    StripKeeps(s, "INR");
    StripEnds(s);
  }

  /** `" ".join(cell or "" for cell in row)`. */
  function RowText(cells: seq<Cell>): string {
    Join(" ", seq(|cells|, k requires 0 <= k < |cells| => OrEmpty(cells[k])))
  }

  /** Row i gets past `if not row` and opens the invoice-value branch: its
      upper-cased text mentions "INVOICE VALUE" and another row follows. */
  predicate OpensValue(table: Table, i: nat)
    requires i < |table|
  {
    && table[i].Some? && table[i].value != []
    && Contains(Upper(RowText(table[i].value)), "INVOICE VALUE")
    && i + 1 < |table|
  }

  /** Row i opens the invoice-value branch and the next row is `None`. */
  predicate CrashAt(table: Table, i: nat)
    requires i < |table|
  {
    OpensValue(table, i) && table[i + 1].None?
  }

  predicate TableCrashes(table: Table, n: nat)
    requires n <= |table|
  {
    exists i :: 0 <= i < n && CrashAt(table, i)
  }

  predicate Crashes(tables: seq<Table>, m: nat)
    requires m <= |tables|
  {
    exists t :: 0 <= t < m && TableCrashes(tables[t], |tables[t]|)
  }

  /** Scanning one more row crashes exactly when that row does. */
  lemma TableCrashesStep(table: Table, i: nat)
    requires i < |table|
    ensures TableCrashes(table, i + 1) <==> TableCrashes(table, i) || CrashAt(table, i)
  {
    if TableCrashes(table, i + 1) && !CrashAt(table, i) {
      var j :| 0 <= j < i + 1 && CrashAt(table, j);
      assert j < i;
    }
  }

  /** Scanning one more table crashes exactly when that table does. */
  lemma CrashesStep(tables: seq<Table>, t: nat)
    requires t < |tables|
    ensures Crashes(tables, t + 1) <==> Crashes(tables, t) || TableCrashes(tables[t], |tables[t]|)
  {
    if Crashes(tables, t + 1) && !TableCrashes(tables[t], |tables[t]|) {
      var u :| 0 <= u < t + 1 && TableCrashes(tables[u], |tables[u]|);
      assert u < t;
    }
  }

  /** The value a cell offers: its stripped text when it qualifies. */
  function ValueOf(c: Cell): Option<string> {
    if IsValueCell(c) then Some(Strip(c.value)) else None
  }

  /** The first value f offers among xs, scanning from the left. */
  function FirstOf<T>(xs: seq<T>, f: T -> Option<string>): Option<string> {
    if xs == [] then None
    else if f(xs[0]).Some? then f(xs[0])
    else FirstOf(xs[1..], f)
  }

  /** `FirstOf` finds nothing exactly when nothing qualifies, and otherwise the
      value of the leftmost element that qualifies. */
  lemma {:induction false} FirstOfSpec<T>(xs: seq<T>, f: T -> Option<string>)
    ensures FirstOf(xs, f).None? <==> forall k :: 0 <= k < |xs| ==> f(xs[k]).None?
    ensures FirstOf(xs, f).Some? ==>
              exists k :: 0 <= k < |xs| && f(xs[k]) == FirstOf(xs, f)
                       && (forall m :: 0 <= m < k ==> f(xs[m]).None?)
  {
    if xs != [] && f(xs[0]).None? {
      FirstOfSpec(xs[1..], f);
      assert forall k :: 1 <= k < |xs| ==> xs[k] == xs[1..][k - 1];
      if FirstOf(xs, f).Some? {
        var k :| 0 <= k < |xs[1..]| && f(xs[1..][k]) == FirstOf(xs, f)
                 && (forall m :: 0 <= m < k ==> f(xs[1..][m]).None?);
        assert f(xs[k + 1]) == FirstOf(xs, f);
        assert forall m :: 1 <= m < k + 1 ==> f(xs[m]).None?;
      }
    }
  }

  /** The inner `for cell in value_row ... break`: the stripped text of the
      first qualifying cell, or nothing when no cell qualifies. */
  function FirstValue(cells: seq<Cell>): Option<string> {
    FirstOf(cells, ValueOf)
  }

  /** The value row yields nothing exactly when no cell qualifies; otherwise it
      yields the stripped text of the leftmost qualifying cell, a decimal number. */
  lemma FirstValueSpec(cells: seq<Cell>)
    ensures FirstValue(cells).None? <==> forall k :: 0 <= k < |cells| ==> !IsValueCell(cells[k])
    ensures FirstValue(cells).Some? ==>
              exists k :: 0 <= k < |cells| && IsValueCell(cells[k])
                       && FirstValue(cells).value == Strip(cells[k].value)
                       && (forall m :: 0 <= m < k ==> !IsValueCell(cells[m]))
    ensures FirstValue(cells).Some? ==> IsDecimal(FirstValue(cells).value)
  {
    FirstOfSpec(cells, ValueOf);
    assert forall k :: 0 <= k < |cells| ==> (ValueOf(cells[k]).None? <==> !IsValueCell(cells[k]));
  }

  /** The invoice value row i contributes: the first qualifying cell of the
      next row, when row i opens the branch. */
  function RowValue(table: Table, i: nat): seq<string>
    requires i < |table|
  {
    if OpensValue(table, i) && table[i + 1].Some? then
      match FirstValue(table[i + 1].value)
      case Some(v) => [v]
      case None => []
    else []
  }

  /** The invoice values rows 0..n-1 of a table assign, in order. */
  function TableValues(table: Table, n: nat): seq<string>
    requires n <= |table|
  {
    if n == 0 then [] else TableValues(table, n - 1) + RowValue(table, n - 1)
  }

  /** Every assignment to `invoice_value` over tables 0..m-1, in order. */
  function ValueCandidates(tables: seq<Table>, m: nat): seq<string>
    requires m <= |tables|
  {
    if m == 0 then [] else ValueCandidates(tables, m - 1) + TableValues(tables[m - 1], |tables[m - 1]|)
  }

  /** The exchange rate one cell assigns: its stripped text, when it names both currencies. */
  function CellRate(c: Cell): seq<string> {
    if IsRateCell(c) then [Strip(c.value)] else []
  }

  /** The exchange rates cells 0..n-1 of a row assign, in order. */
  function CellRates(cells: seq<Cell>, n: nat): seq<string>
    requires n <= |cells|
  {
    if n == 0 then []
    else CellRates(cells, n - 1) + CellRate(cells[n - 1])
  }

  /** The exchange rates row i assigns; a skipped row assigns none. */
  function RowRates(table: Table, i: nat): seq<string>
    requires i < |table|
  {
    if table[i].Some? && table[i].value != [] then CellRates(table[i].value, |table[i].value|) else []
  }

  /** The exchange rates rows 0..n-1 of a table assign, in order. */
  function TableRates(table: Table, n: nat): seq<string>
    requires n <= |table|
  {
    if n == 0 then [] else TableRates(table, n - 1) + RowRates(table, n - 1)
  }

  /** Every assignment to `exchange_rate` over tables 0..m-1, in order. */
  function RateCandidates(tables: seq<Table>, m: nat): seq<string>
    requires m <= |tables|
  {
    if m == 0 then [] else RateCandidates(tables, m - 1) + TableRates(tables[m - 1], |tables[m - 1]|)
  }

  /** The invoice value a row assigns is a decimal number. */
  lemma RowValueDecimal(table: Table, i: nat)
    requires i < |table|
    ensures All(RowValue(table, i), IsDecimal)
  {
    if OpensValue(table, i) && table[i + 1].Some? {
      FirstValueSpec(table[i + 1].value);
    }
  }

  /** Every invoice value a table assigns is a decimal number. */
  lemma {:induction false} TableValuesDecimal(table: Table, n: nat)
    requires n <= |table|
    ensures All(TableValues(table, n), IsDecimal)
  {
    if n > 0 {
      TableValuesDecimal(table, n - 1);
      RowValueDecimal(table, n - 1);
      AllAppend(TableValues(table, n - 1), RowValue(table, n - 1), IsDecimal);
    }
  }

  /** Every invoice value any table assigns is a decimal number. */
  lemma {:induction false} ValueCandidatesDecimal(tables: seq<Table>, m: nat)
    requires m <= |tables|
    ensures forall k :: 0 <= k < |ValueCandidates(tables, m)| ==> IsDecimal(ValueCandidates(tables, m)[k])
  {
    if m > 0 {
      ValueCandidatesDecimal(tables, m - 1);
      var t := tables[m - 1];
      TableValuesDecimal(t, |t|);
      AllAppend(ValueCandidates(tables, m - 1), TableValues(t, |t|), IsDecimal);
    }
  }

  /** The exchange rate a cell assigns names EUR and INR and is stripped. */
  lemma CellRateText(c: Cell)
    ensures forall k :: 0 <= k < |CellRate(c)| ==> IsRateText(CellRate(c)[k])
  {
    if IsRateCell(c) {
      RateTextOfCell(c.value);
      assert CellRate(c) == [Strip(c.value)];
    }
  }

  /** Every exchange rate a row assigns names EUR and INR and is stripped. */
  lemma {:induction false} CellRatesText(cells: seq<Cell>, n: nat)
    requires n <= |cells|
    ensures forall k :: 0 <= k < |CellRates(cells, n)| ==> IsRateText(CellRates(cells, n)[k])
  {
    if n > 0 {
      CellRatesText(cells, n - 1);
      CellRateText(cells[n - 1]);
      AllAppend(CellRates(cells, n - 1), CellRate(cells[n - 1]), IsRateText);
    }
  }

  /** Every exchange rate a table assigns names EUR and INR and is stripped. */
  lemma {:induction false} TableRatesText(table: Table, n: nat)
    requires n <= |table|
    ensures forall k :: 0 <= k < |TableRates(table, n)| ==> IsRateText(TableRates(table, n)[k])
  {
    if n > 0 {
      TableRatesText(table, n - 1);
      var row := table[n - 1];
      if row.Some? && row.value != [] {
        CellRatesText(row.value, |row.value|);
      }
      AllAppend(TableRates(table, n - 1), RowRates(table, n - 1), IsRateText);
    }
  }

  /** Every exchange rate any table assigns names EUR and INR and is stripped. */
  lemma {:induction false} RateCandidatesText(tables: seq<Table>, m: nat)
    requires m <= |tables|
    ensures forall k :: 0 <= k < |RateCandidates(tables, m)| ==> IsRateText(RateCandidates(tables, m)[k])
  {
    if m > 0 {
      RateCandidatesText(tables, m - 1);
      var t := tables[m - 1];
      TableRatesText(t, |t|);
      AllAppend(RateCandidates(tables, m - 1), TableRates(t, |t|), IsRateText);
    }
  }

  /** The value a variable holds after the assignments xs, starting from cur. */
  function LatestAfter(cur: string, xs: seq<string>): string {
    if xs == [] then cur else xs[|xs| - 1]
  }

  /** Assignments in two stretches: the second starts from where the first left off. */
  lemma LatestAfterAppend(cur: string, xs: seq<string>, ys: seq<string>)
    ensures LatestAfter(cur, xs + ys) == LatestAfter(LatestAfter(cur, xs), ys)
  {
  }

  /** What the scan of lines 76-94 produces: the error it raises, or the last
      invoice value and the last exchange rate assigned ("" when none is). */
  function ScanResult(tables: seq<Table>): Result<Figures, ScanError> {
    if Crashes(tables, |tables|) then Err(RowNotIterable)
    else Ok(Figures(LatestAfter("", ValueCandidates(tables, |tables|)), LatestAfter("", RateCandidates(tables, |tables|))))
  }

  /** Both figures are "" or have the promised shape: the invoice value is a
      decimal number, the exchange rate a stripped cell naming EUR and INR. */
  lemma ScanResultShape(tables: seq<Table>)
    ensures ScanResult(tables).Ok? ==>
      var f := ScanResult(tables).value;
      && (f.invoiceValue == "" || IsDecimal(f.invoiceValue))
      && (f.exchangeRate == "" || IsRateText(f.exchangeRate))
  {
    ValueCandidatesDecimal(tables, |tables|);
    RateCandidatesText(tables, |tables|);
  }

  /** `for cell in value_row`, stopping at the first qualifying cell. */
  method FindValue(valueRow: seq<Cell>) returns (v: Option<string>)
    ensures v == FirstValue(valueRow)
  {
    var j := 0;
    while j < |valueRow|
      invariant 0 <= j <= |valueRow|
      invariant FirstValue(valueRow[j..]) == FirstValue(valueRow)
    {
      var cell := valueRow[j];
      if IsValueCell(cell) {
        return Some(Strip(cell.value));
      }
      assert valueRow[j..][1..] == valueRow[j + 1..];
      j := j + 1;
    }
    return None;
  }

  /** `for cell in row` with the exchange-rate test: every rate cell overwrites
      the rate, so the last one wins. */
  method ScanRates(cells: seq<Cell>, rate: string) returns (newRate: string)
    ensures newRate == LatestAfter(rate, CellRates(cells, |cells|))
  {
    newRate := rate;
    for k := 0 to |cells|
      invariant newRate == LatestAfter(rate, CellRates(cells, k))
    {
      var cell := cells[k];
      if IsRateCell(cell) {
        newRate := Strip(cell.value);
      }
    }
  }

  /** The body of `for row in table` for row i: the figures after it, or the
      error when it opens the invoice-value branch onto a `None` row. */
  method ScanRow(table: Table, i: nat, figures: Figures) returns (r: Result<Figures, ScanError>)
    requires i < |table|
    ensures r.Err? <==> CrashAt(table, i)
    ensures r.Ok? ==> r.value == Figures(LatestAfter(figures.invoiceValue, RowValue(table, i)),
                                         LatestAfter(figures.exchangeRate, RowRates(table, i)))
  {
    var row := table[i];
    if row.None? || row.value == [] {
      return Ok(figures);
    }
    var invoiceValue := figures.invoiceValue;
    var cells := row.value;
    var rowText := Upper(RowText(cells));
    if Contains(rowText, "INVOICE VALUE") && i + 1 < |table| {
      var valueRow := table[i + 1];
      if valueRow.None? {
        return Err(RowNotIterable);
      }
      var v := FindValue(valueRow.value);
      if v.Some? {
        invoiceValue := v.value;
      }
    }
    var exchangeRate := ScanRates(cells, figures.exchangeRate);
    return Ok(Figures(invoiceValue, exchangeRate));
  }

  /** `for row in table`: the figures after one table, or the error. */
  method ScanTable(table: Table, figures: Figures) returns (r: Result<Figures, ScanError>)
    ensures r.Err? <==> TableCrashes(table, |table|)
    ensures r.Ok? ==> r.value == Figures(LatestAfter(figures.invoiceValue, TableValues(table, |table|)),
                                         LatestAfter(figures.exchangeRate, TableRates(table, |table|)))
  {
    var current := figures;
    for i := 0 to |table|
      invariant !TableCrashes(table, i)
      invariant current == Figures(LatestAfter(figures.invoiceValue, TableValues(table, i)),
                                   LatestAfter(figures.exchangeRate, TableRates(table, i)))
    {
      LatestAfterAppend(figures.invoiceValue, TableValues(table, i), RowValue(table, i));
      LatestAfterAppend(figures.exchangeRate, TableRates(table, i), RowRates(table, i));
      TableCrashesStep(table, i);
      var next := ScanRow(table, i, current);
      if next.Err? {
        assert TableCrashes(table, |table|) by {
          assert 0 <= i < |table| && CrashAt(table, i);
        }
        return Err(RowNotIterable);
      }
      current := next.value;
    }
    return Ok(current);
  }

  /** One more table scanned: the scan either stops with the error of the whole
      scan, or the figures are those of one more table. */
  lemma ScanTablesStep(tables: seq<Table>, t: nat, figures: Figures, next: Result<Figures, ScanError>)
    requires t < |tables| && !Crashes(tables, t)
    requires figures == Figures(LatestAfter("", ValueCandidates(tables, t)), LatestAfter("", RateCandidates(tables, t)))
    requires next.Err? <==> TableCrashes(tables[t], |tables[t]|)
    requires next.Ok? ==> next.value == Figures(LatestAfter(figures.invoiceValue, TableValues(tables[t], |tables[t]|)),
                                                LatestAfter(figures.exchangeRate, TableRates(tables[t], |tables[t]|)))
    ensures next.Err? ==> ScanResult(tables) == Err(RowNotIterable)
    ensures next.Ok? ==> !Crashes(tables, t + 1)
    ensures next.Ok? ==>
      next.value == Figures(LatestAfter("", ValueCandidates(tables, t + 1)), LatestAfter("", RateCandidates(tables, t + 1)))
  {
    CrashesStep(tables, t);
    if next.Err? {
      assert Crashes(tables, |tables|) by {
        assert 0 <= t < |tables| && TableCrashes(tables[t], |tables[t]|);
      }
    } else {
      LatestAfterAppend("", ValueCandidates(tables, t), TableValues(tables[t], |tables[t]|));
      LatestAfterAppend("", RateCandidates(tables, t), TableRates(tables[t], |tables[t]|));
    }
  }

  /** The nested loops of lines 76-94, one table at a time. */
  method ScanTables(tables: seq<Table>) returns (r: Result<Figures, ScanError>)
    ensures r == ScanResult(tables)
  {
    var figures := Figures("", "");
    for t := 0 to |tables|
      invariant !Crashes(tables, t)
      invariant figures == Figures(LatestAfter("", ValueCandidates(tables, t)), LatestAfter("", RateCandidates(tables, t)))
    {
      var next := ScanTable(tables[t], figures);
      ScanTablesStep(tables, t, figures, next);
      if next.Err? {
        return Err(RowNotIterable);
      }
      figures := next.value;
    }
    return Ok(figures);
  }
}
