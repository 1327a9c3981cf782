/** The buyer-address part of `extract_invoice_data` in backend/worker.py: the
    text of the cropped buyer box is split into lines, header and noise lines
    are dropped, and the rest are cleaned and joined. */
module BuyerAddress {
  import opened Common
  import opened Text

  /** The ASCII line boundaries of Python's `str.splitlines()`: line feed,
      carriage return, vertical tab, form feed and the separators 0x1C-0x1E. */
  predicate IsLineBreak(c: char) {
    c == '\n' || c == '\r' || c as int == 11 || c as int == 12 || 28 <= c as int <= 30
  }

  /** The number of characters before the next line boundary at or after i. */
  function LineRun(s: string, i: nat): (n: nat)
    requires i <= |s|
    ensures i + n <= |s|
    ensures forall k :: i <= k < i + n ==> !IsLineBreak(s[k])
    ensures i + n < |s| ==> IsLineBreak(s[i + n])
    decreases |s| - i
  {
    if i < |s| && !IsLineBreak(s[i]) then 1 + LineRun(s, i + 1) else 0
  }

  /** Python's `str.splitlines()`: "\r\n" is one boundary, and a boundary at
      the very end does not start another line. */
  function SplitLines(s: string): seq<string>
    decreases |s|
  {
    if s == [] then []
    else
      var n := LineRun(s, 0);
      if n == |s| then [s]
      else
        var skip := if s[n] == '\r' && n + 1 < |s| && s[n + 1] == '\n' then 2 else 1;
        [s[..n]] + SplitLines(s[n + skip..])
  }

  /** A stripped line survives the filter when it is non-empty and its upper
      case mentions neither "BUYER" nor "AEO". */
  predicate Admitted(line: string) {
    line != "" && !Contains(Upper(line), "BUYER") && !Contains(Upper(line), "AEO")
  }

  /** `re.sub(r"\bC$", "", line)` on a stripped line (which has no final line
      feed, so `$` is the end): a final "C" goes when nothing or a non-word
      character comes before it. */
  function DropFinalC(s: string): string {
    if s != [] && s[|s| - 1] == 'C' && (|s| == 1 || !IsWordChar(s[|s| - 2])) then s[..|s| - 1] else s
  }

  /** `re.sub(r"\s{2,}", " ", line)`: every run of two or more whitespace
      characters becomes one space; a lone whitespace character stays. */
  function CollapseSpaces(s: string): (r: string)
    ensures NoDoubleSpace(r)
    ensures s != [] ==> r != [] && (IsSpace(r[0]) <==> IsSpace(s[0]))
    decreases |s|
  {
    if |s| >= 2 && IsSpace(s[0]) && IsSpace(s[1]) then
      var n := SpaceRun(s, 0);
      " " + CollapseSpaces(s[n..])
    else if s == [] then []
    else [s[0]] + CollapseSpaces(s[1..])
  }

  /** Text without double whitespace is left alone, so collapsing is idempotent. */
  lemma {:induction false} CollapseSpacesFixes(s: string)
    requires NoDoubleSpace(s)
    ensures CollapseSpaces(s) == s
    decreases |s|
  {
    if s != [] {
      assert !(|s| >= 2 && IsSpace(s[0]) && IsSpace(s[1]));
      assert NoDoubleSpace(s[1..]) by {
        forall i | 0 <= i < |s[1..]| - 1
          ensures !IsSpace(s[1..][i]) || !IsSpace(s[1..][i + 1])
        {
          assert s[1..][i] == s[i + 1] && s[1..][i + 1] == s[i + 2];
        }
      }
      CollapseSpacesFixes(s[1..]);
      assert [s[0]] + s[1..] == s;
    }
  }

  /** The three OCR clean-up steps, in the order the code applies them. */
  function CleanLine(line: string): string {
    CollapseSpaces(DropFinalC(Replace(line, "OFPFICE", "OFFICE")))
  }

  /** What one raw line of the buyer box contributes to `buyer_lines`: its
      cleaned form when the stripped line is admitted, nothing otherwise. */
  function KeepLine(raw: string): Option<string> {
    var line := Strip(raw);
    if Admitted(line) then Some(CleanLine(line)) else None
  }

  /** `buyer_lines` after the loop over `lines`. */
  function KeptLines(lines: seq<string>): seq<string> {
    Gather(lines, KeepLine)
  }

  /** The positions of the kept lines. */
  function KeptIndices(lines: seq<string>): seq<nat> {
    GatherIndices(lines, KeepLine)
  }

  /** The kept lines are exactly the admitted stripped lines, each cleaned, in
      their original order; there are never more of them than lines, and none
      holds two adjacent whitespace characters. */
  lemma KeptLinesExactly(lines: seq<string>)
    ensures |KeptLines(lines)| <= |lines|
    ensures |KeptIndices(lines)| == |KeptLines(lines)|
    ensures forall k, m :: 0 <= k < m < |KeptIndices(lines)| ==> KeptIndices(lines)[k] < KeptIndices(lines)[m]
    ensures forall k :: 0 <= k < |KeptIndices(lines)| ==>
              KeptIndices(lines)[k] < |lines|
              && Admitted(Strip(lines[KeptIndices(lines)[k]]))
              && KeptLines(lines)[k] == CleanLine(Strip(lines[KeptIndices(lines)[k]]))
    ensures forall i :: 0 <= i < |lines| && Admitted(Strip(lines[i])) ==> i in KeptIndices(lines)
    ensures forall k :: 0 <= k < |KeptLines(lines)| ==> NoDoubleSpace(KeptLines(lines)[k])
  {
    GatherExactly(lines, KeepLine);
    var idx, kept := KeptIndices(lines), KeptLines(lines);
    forall k | 0 <= k < |idx|
      ensures Admitted(Strip(lines[idx[k]])) && kept[k] == CleanLine(Strip(lines[idx[k]]))
    {
      assert KeepLine(lines[idx[k]]) == Some(kept[k]);
    }
    forall i | 0 <= i < |lines| && Admitted(Strip(lines[i]))
      ensures i in idx
    {
      assert KeepLine(lines[i]).Some?;
    }
  }

  /** The loop of lines 51-67: strip, skip, clean, append. */
  method CollectBuyerLines(buyerText: Option<string>) returns (buyerLines: seq<string>)
    ensures buyerLines == KeptLines(SplitLines(OrEmpty(buyerText)))
  {
    var lines := SplitLines(OrEmpty(buyerText));
    buyerLines := [];
    for i := 0 to |lines|
      invariant buyerLines == KeptLines(lines[..i])
    {
      GatherStep(lines, i, KeepLine);
      var line := Strip(lines[i]);
      if line == "" {
        assert KeepLine(lines[i]) == None;
        continue;
      }
      if Contains(Upper(line), "BUYER") {
        assert KeepLine(lines[i]) == None;
        continue;
      }
      if Contains(Upper(line), "AEO") {
        assert KeepLine(lines[i]) == None;
        continue;
      }
      assert KeepLine(lines[i]) == Some(CleanLine(line));
      line := Replace(line, "OFPFICE", "OFFICE");
      line := DropFinalC(line);
      line := CollapseSpaces(line);
      buyerLines := buyerLines + [line];
    }
    assert lines[..|lines|] == lines;
  }

  /** `buyer_address`: the kept lines joined with single spaces. */
  function BuyerAddressOf(buyerLines: seq<string>): string {
    Join(" ", buyerLines)
  }

  /** With no kept line the address is "", but "" does not mean that no line
      was kept: a line reading just "C" is admitted and cleaned to "". */
  lemma EmptyAddress()
    ensures BuyerAddressOf(KeptLines(SplitLines(""))) == ""
    ensures Admitted("C") && CleanLine("C") == ""
  {
    assert Upper("C") == "C";
  }
}
