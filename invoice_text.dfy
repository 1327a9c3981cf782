/** The page-text part of `extract_invoice_data` in backend/worker.py: the
    page text is flattened, then searched for the invoice number and date. */
module InvoiceText {
  import opened Common
  import opened Text

  /** `" ".join((page.extract_text() or "").split())`. */
  function FlatText(text: Option<string>): string {
    Join(" ", Split(OrEmpty(text)))
  }

  /** The flattened text is flat, keeps every token of the page text in order,
      and a page without text flattens to "". */
  lemma FlatTextSpec(text: Option<string>)
    ensures IsFlat(FlatText(text))
    ensures Split(FlatText(text)) == Split(OrEmpty(text))
    ensures text == None ==> FlatText(text) == ""
  {
    JoinWords(Split(OrEmpty(text)));
  }

  /** `\d{2}/\d{2}/\d{4}` at position i. */
  predicate DateAt(s: string, i: nat) {
    && i + 10 <= |s|
    && IsDigit(s[i]) && IsDigit(s[i + 1]) && s[i + 2] == '/'
    && IsDigit(s[i + 3]) && IsDigit(s[i + 4]) && s[i + 5] == '/'
    && IsDigit(s[i + 6]) && IsDigit(s[i + 7]) && IsDigit(s[i + 8]) && IsDigit(s[i + 9])
  }

  /** Where a match of `EXP-\d+\s+\d{2}/\d{2}/\d{4}` starting at p ends. The
      greedy `\d+` and `\s+` can never give back a character here (a shorter
      run would be followed by a digit or a space, not by what comes next), so
      a match exists exactly when the maximal runs fit. */
  function MatchAt(s: string, p: nat): (e: Option<nat>)
    requires p <= |s|
    ensures e.Some? ==> p < e.value <= |s|
  {
    if !(p + 4 <= |s| && s[p..p + 4] == "EXP-") then None
    else
      var d := DigitRun(s, p + 4);
      var q := p + 4 + d;
      var w := SpaceRun(s, q);
      if d == 0 || w == 0 || !DateAt(s, q + w) then None
      else Some(q + w + 10)
  }

  /** `re.search` from position p on: the leftmost position where a match starts. */
  function FirstMatchFrom(s: string, p: nat): (r: Option<nat>)
    requires p <= |s|
    ensures r.Some? ==> p <= r.value <= |s| && MatchAt(s, r.value).Some?
    ensures r.Some? ==> forall q :: p <= q < r.value ==> MatchAt(s, q).None?
    ensures r.None? ==> forall q :: p <= q <= |s| ==> MatchAt(s, q).None?
    decreases |s| - p
  {
    if MatchAt(s, p).Some? then Some(p)
    else if p == |s| then None
    else FirstMatchFrom(s, p + 1)
  }

  /** `invoice_no_dt`: the text of the leftmost match, or "" when nothing matches. */
  function InvoiceNoDate(s: string): (r: string)
    ensures r == "" <==> forall p :: 0 <= p <= |s| ==> MatchAt(s, p).None?
    ensures r != "" ==> exists p :: 0 <= p <= |s| && MatchAt(s, p).Some?
                                   && r == s[p..MatchAt(s, p).value]
                                   && (forall q :: 0 <= q < p ==> MatchAt(s, q).None?)
  {
    match FirstMatchFrom(s, 0)
    case None => ""
    case Some(p) => s[p..MatchAt(s, p).value]
  }

  /** The literal shape of an invoice token in flat text: "EXP-", one or more
      digits, one space, and a dd/dd/dddd date. */
  predicate IsExpToken(t: string) {
    var k := |t| - 15;
    && k >= 1
    && t[..4] == "EXP-"
    && AllDigits(t[4..4 + k])
    && t[4 + k] == ' '
    && DateAt(t, 5 + k)
  }

  /** "EXP-", d >= 1 digits, one space and a date at p of s form an invoice token. */
  lemma ExpTokenAt(s: string, p: nat, d: nat)
    requires d >= 1 && p + 15 + d <= |s| && s[p..p + 4] == "EXP-"
    requires forall k :: p + 4 <= k < p + 4 + d ==> IsDigit(s[k])
    requires s[p + 4 + d] == ' ' && DateAt(s, p + 5 + d)
    ensures IsExpToken(s[p..p + 15 + d])
  {
    var t := s[p..p + 15 + d];
    assert |t| - 15 == d;
    assert t[..4] == s[p..p + 4];
    assert forall j :: 4 <= j < 4 + d ==> t[j] == s[p + j];
    assert t[4 + d] == s[p + 4 + d];
    assert forall j :: 5 + d <= j < 15 + d ==> t[j] == s[p + j];
  }

  /** In flat text the `\s+` of a match is exactly one space, so every match is
      an invoice token. */
  lemma MatchInFlatText(s: string, p: nat)
    requires IsFlat(s) && p <= |s| && MatchAt(s, p).Some?
    ensures IsExpToken(s[p..MatchAt(s, p).value])
  {
    var d := DigitRun(s, p + 4);
    var q := p + 4 + d;
    var w := SpaceRun(s, q);
    assert d >= 1 && w >= 1 && DateAt(s, q + w);
    assert IsSpace(s[q]) && IsSpace(s[q + 1]) ==> w >= 2;
    assert w == 1 by {
      assert q + 1 < |s|;
      assert !IsSpace(s[q]) || !IsSpace(s[q + 1]);
    }
    assert s[q] == ' ';
    assert MatchAt(s, p).value == p + 15 + d;
    ExpTokenAt(s, p, d);
  }

  /** k digits followed by a non-digit form a digit run of length k. */
  lemma DigitRunIs(s: string, i: nat, k: nat)
    requires i + k < |s| && !IsDigit(s[i + k])
    requires forall j :: i <= j < i + k ==> IsDigit(s[j])
    ensures DigitRun(s, i) == k
  {
  }

  /** A space followed by a digit is a whitespace run of length one. */
  lemma SpaceRunOne(s: string, q: nat)
    requires q + 1 < |s| && s[q] == ' ' && IsDigit(s[q + 1])
    ensures SpaceRun(s, q) == 1
  {
  }

  /** The parts of an invoice token at p, read off s itself. */
  lemma TokenParts(s: string, p: nat, e: nat)
    requires p <= e <= |s| && IsExpToken(s[p..e])
    ensures var k := e - p - 15;
      && k >= 1 && s[p..p + 4] == "EXP-"
      && (forall j :: p + 4 <= j < p + 4 + k ==> IsDigit(s[j]))
      && s[p + 4 + k] == ' ' && DateAt(s, p + 5 + k)
  {
    var t := s[p..e];
    var k := |t| - 15;
    assert forall j :: 0 <= j < |t| ==> t[j] == s[p + j];
    assert s[p..p + 4] == t[..4];
    assert forall j :: 4 <= j < 4 + k ==> t[4..4 + k][j - 4] == t[j];
  }

  /** Conversely, an invoice token at p, in any text, is the match at p: the
      greedy runs stop at the space and at the date's first digit. */
  lemma ExpTokenIsMatch(s: string, p: nat, e: nat)
    requires p <= e <= |s| && IsExpToken(s[p..e])
    ensures MatchAt(s, p) == Some(e)
  {
    TokenParts(s, p, e);
    var k := e - p - 15;
    DigitRunIs(s, p + 4, k);
    SpaceRunOne(s, p + 4 + k);
  }

  /** An invoice token spans positions p to e of s. */
  predicate TokenAt(s: string, p: nat, e: nat) {
    p <= e <= |s| && IsExpToken(s[p..e])
  }

  /** Every invoice token in a text is the match at its start. */
  lemma TokensAreMatches(s: string)
    ensures forall p: nat, e: nat :: TokenAt(s, p, e) ==> MatchAt(s, p) == Some(e)
  {
    forall p: nat, e: nat | TokenAt(s, p, e)
      ensures MatchAt(s, p) == Some(e)
    {
      ExpTokenIsMatch(s, p, e);
    }
  }

  /** In flat text `invoice_no_dt` is "" exactly when the text holds no
      invoice token, and otherwise the leftmost one. */
  lemma InvoiceNoDateOfFlat(s: string)
    requires IsFlat(s)
    ensures var r := InvoiceNoDate(s);
      && (r == "" <==> forall p: nat, e: nat :: !TokenAt(s, p, e))
      && (r != "" ==> exists p: nat, e: nat :: TokenAt(s, p, e) && r == s[p..e]
                                             && forall q: nat, f: nat :: q < p ==> !TokenAt(s, q, f))
  {
    TokensAreMatches(s);
    var m := FirstMatchFrom(s, 0);
    if m.Some? {
      var p := m.value;
      var e := MatchAt(s, p).value;
      MatchInFlatText(s, p);
      assert TokenAt(s, p, e);
    }
  }

  /** `invoice_no_dt` as computed from the page text: "" exactly when the
      flattened text holds no invoice token, and otherwise the leftmost one. */
  lemma InvoiceNoDateShape(text: Option<string>)
    ensures var s := FlatText(text); var r := InvoiceNoDate(s);
      && (r == "" <==> forall p: nat, e: nat :: !TokenAt(s, p, e))
      && (r != "" ==> exists p: nat, e: nat :: TokenAt(s, p, e) && r == s[p..e]
                                             && forall q: nat, f: nat :: q < p ==> !TokenAt(s, q, f))
  {
    FlatTextSpec(text);
    InvoiceNoDateOfFlat(FlatText(text));
  }
}
