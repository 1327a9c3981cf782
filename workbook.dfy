/** The part of an openpyxl workbook the backend uses: the active worksheet,
    its title, the rows appended to it, and the file it is saved to. */
module Sheets {

  /** A cell value: the serial numbers are integers, everything else is text. */
  datatype CellValue = Number(n: int) | Str(s: string)

  /** A workbook as written to disk by `wb.save(path)`: one worksheet. */
  datatype SavedWorkbook = SavedWorkbook(path: string, title: string, rows: seq<seq<CellValue>>)

  /** Text cells from strings, one per string, in order. */
  function StrCells(xs: seq<string>): (cells: seq<CellValue>)
    ensures |cells| == |xs|
    ensures forall k :: 0 <= k < |xs| ==> cells[k] == Str(xs[k])
  {
    if xs == [] then [] else [Str(xs[0])] + StrCells(xs[1..])
  }

  /** The active worksheet of a new `Workbook()`. */
  class Worksheet {
    var title: string
    var rows: seq<seq<CellValue>>

    /** openpyxl names the first sheet "Sheet" and starts it empty. */
    constructor ()
      ensures title == "Sheet" && rows == []
    {
      title := "Sheet";
      rows := [];
    }

    /** `ws.title = t`. */
    method SetTitle(t: string)
      modifies this
      ensures title == t && rows == old(rows)
    {
      title := t;
    }

    /** `ws.append(row)`: the row goes below the existing ones. */
    method Append(row: seq<CellValue>)
      modifies this
      ensures rows == old(rows) + [row] && title == old(title)
    {
      rows := rows + [row];
    }

    /** What `wb.save(path)` writes. */
    function Saved(path: string): SavedWorkbook
      reads this
    {
      SavedWorkbook(path, title, rows)
    }
  }
}
