/** The string built-ins of Python and JavaScript that the backend relies on,
    restricted to ASCII character classes. */
module Text {
  import opened Common

  /** Python's `str.isspace()` on ASCII: tab, line feed, vertical tab, form feed,
      carriage return, the separators 0x1C-0x1F, and space. This is also what
      the regular-expression class `\s` and `str.split()` treat as whitespace. */
  predicate IsSpace(c: char) {
    9 <= c as int <= 13 || 28 <= c as int <= 32
  }

  /** The regular-expression class `\d` on ASCII. */
  predicate IsDigit(c: char) {
    '0' <= c <= '9'
  }

  /** The regular-expression class `\w` on ASCII. */
  predicate IsWordChar(c: char) {
    'a' <= c <= 'z' || 'A' <= c <= 'Z' || IsDigit(c) || c == '_'
  }

  predicate AllDigits(s: string) {
    forall i :: 0 <= i < |s| ==> IsDigit(s[i])
  }

  predicate NoSpace(s: string) {
    forall i :: 0 <= i < |s| ==> !IsSpace(s[i])
  }

  /** Python's `s or ""` applied to a library result that may be `None`. */
  function OrEmpty(s: Option<string>): string {
    if s.Some? then s.value else ""
  }

  function UpperChar(c: char): char {
    if 'a' <= c <= 'z' then (c as int - 32) as char else c
  }

  function LowerChar(c: char): char {
    if 'A' <= c <= 'Z' then (c as int + 32) as char else c
  }

  /** Python's `str.upper()` on ASCII letters. */
  function Upper(s: string): string {
    seq(|s|, i requires 0 <= i < |s| => UpperChar(s[i]))
  }

  /** Python's `str.lower()` on ASCII letters. */
  function Lower(s: string): string {
    seq(|s|, i requires 0 <= i < |s| => LowerChar(s[i]))
  }

  /** Python's `p in s`. */
  function Contains(s: string, p: string): bool
    decreases |s|
  {
    |p| <= |s| && (s[..|p|] == p || (s != [] && Contains(s[1..], p)))
  }

  /** Python's `s.endswith(p)`. */
  predicate EndsWith(s: string, p: string) {
    |p| <= |s| && s[|s| - |p|..] == p
  }

  /** Python's `s.replace(pattern, replacement)`: every non-overlapping
      occurrence, scanning from the left. */
  function Replace(s: string, pattern: string, replacement: string): string
    requires pattern != []
    decreases |s|
  {
    if |s| < |pattern| then s
    else if s[..|pattern|] == pattern then replacement + Replace(s[|pattern|..], pattern, replacement)
    else [s[0]] + Replace(s[1..], pattern, replacement)
  }

  /** The number of whitespace characters from position i on. */
  function SpaceRun(s: string, i: nat): (n: nat)
    requires i <= |s|
    ensures i + n <= |s|
    ensures forall k :: i <= k < i + n ==> IsSpace(s[k])
    ensures i + n < |s| ==> !IsSpace(s[i + n])
    decreases |s| - i
  {
    if i < |s| && IsSpace(s[i]) then 1 + SpaceRun(s, i + 1) else 0
  }

  /** The number of non-whitespace characters from position i on. */
  function WordRun(s: string, i: nat): (n: nat)
    requires i <= |s|
    ensures i + n <= |s|
    ensures forall k :: i <= k < i + n ==> !IsSpace(s[k])
    ensures i + n < |s| ==> IsSpace(s[i + n])
    decreases |s| - i
  {
    if i < |s| && !IsSpace(s[i]) then 1 + WordRun(s, i + 1) else 0
  }

  /** The number of digits from position i on. */
  function DigitRun(s: string, i: nat): (n: nat)
    requires i <= |s|
    ensures i + n <= |s|
    ensures forall k :: i <= k < i + n ==> IsDigit(s[k])
    ensures i + n < |s| ==> !IsDigit(s[i + n])
    decreases |s| - i
  {
    if i < |s| && IsDigit(s[i]) then 1 + DigitRun(s, i + 1) else 0
  }

  /** A token of `str.split()`: non-empty and free of whitespace. */
  predicate IsWord(w: string) {
    w != [] && NoSpace(w)
  }

  /** Python's `s.split()` with no separator: the maximal runs of
      non-whitespace characters, in order. */
  function Split(s: string): (words: seq<string>)
    ensures forall k :: 0 <= k < |words| ==> IsWord(words[k])
    decreases |s|
  {
    if s == [] then []
    else if IsSpace(s[0]) then Split(s[1..])
    else
      var n := WordRun(s, 0);
      [s[..n]] + Split(s[n..])
  }

  /** Python's `sep.join(parts)`. */
  function Join(sep: string, parts: seq<string>): string {
    if parts == [] then ""
    else if |parts| == 1 then parts[0]
    else parts[0] + sep + Join(sep, parts[1..])
  }

  /** No two adjacent whitespace characters. */
  predicate NoDoubleSpace(s: string) {
    forall i :: 0 <= i < |s| - 1 ==> !IsSpace(s[i]) || !IsSpace(s[i + 1])
  }

  /** The shape of `" ".join(s.split())`: the only whitespace is single
      spaces, and none at either end. */
  predicate IsFlat(s: string) {
    && NoDoubleSpace(s)
    && (forall i :: 0 <= i < |s| && IsSpace(s[i]) ==> s[i] == ' ')
    && (s != [] ==> !IsSpace(s[0]) && !IsSpace(s[|s| - 1]))
  }

  /** Splitting a word followed by whitespace (or nothing) yields the word first. */
  lemma SplitWordThen(w: string, t: string)
    requires IsWord(w)
    requires t == [] || IsSpace(t[0])
    ensures Split(w + t) == [w] + Split(t)
  {
    var s := w + t;
    var n := WordRun(s, 0);
    assert forall k :: 0 <= k < |w| ==> s[k] == w[k];
    assert |w| < |s| ==> s[|w|] == t[0];
    assert n == |w|;
    assert s[..n] == w;
    assert s[n..] == t;
  }

  /** Leading whitespace contributes no word. */
  lemma {:induction false} SplitSpaces(g: string, t: string)
    requires AllSpace(g)
    ensures Split(g + t) == Split(t)
    decreases |g|
  {
    if g != [] {
      var s := g + t;
      assert s[0] == g[0] && s[1..] == g[1..] + t;
      SplitSpaces(g[1..], t);
    } else {
      assert g + t == t;
    }
  }

  /** A word, a space and flat non-empty text make flat text. */
  lemma JoinFlat(w: string, rest: string)
    requires IsWord(w) && IsFlat(rest) && rest != []
    ensures IsFlat(w + " " + rest)
  {
    var j := w + " " + rest;
    assert forall i :: 0 <= i < |w| ==> j[i] == w[i];
    assert j[|w|] == ' ';
    assert forall i :: |w| < i < |j| ==> j[i] == rest[i - |w| - 1];
    forall i | 0 <= i < |j| - 1
      ensures !IsSpace(j[i]) || !IsSpace(j[i + 1])
    {
      if i == |w| {
        assert j[i + 1] == rest[0];
      } else if i > |w| {
        assert j[i] == rest[i - |w| - 1] && j[i + 1] == rest[i - |w|];
      }
    }
  }

  /** A word, a space and flat non-empty text that splits into words: flat
      text that splits into the word and then those words. */
  lemma JoinCons(w: string, rest: string, words: seq<string>)
    requires IsWord(w) && IsFlat(rest) && rest != [] && Split(rest) == words
    ensures IsFlat(w + " " + rest)
    ensures Split(w + " " + rest) == [w] + words
  {
    JoinFlat(w, rest);
    var t := " " + rest;
    SplitWordThen(w, t);
    assert t[1..] == rest;
    assert Split(t) == Split(rest);
    assert w + t == w + " " + rest;
  }

  /** Joining words with single spaces gives flat text that splits back into
      the same words. */
  lemma {:induction false} JoinWords(ws: seq<string>)
    requires forall k :: 0 <= k < |ws| ==> IsWord(ws[k])
    ensures IsFlat(Join(" ", ws))
    ensures Split(Join(" ", ws)) == ws
    ensures ws != [] ==> Join(" ", ws) != []
  {
    if |ws| == 1 {
      SplitWordThen(ws[0], "");
      assert ws[0] + "" == ws[0];
    } else if |ws| > 1 {
      JoinWords(ws[1..]);
      JoinCons(ws[0], Join(" ", ws[1..]), ws[1..]);
      assert Join(" ", ws) == ws[0] + " " + Join(" ", ws[1..]);
      assert [ws[0]] + ws[1..] == ws;
    }
  }

  /** Every character is whitespace. */
  predicate AllSpace(s: string) {
    forall k :: 0 <= k < |s| ==> IsSpace(s[k])
  }

  /** Python's `str.lstrip()`. */
  function TrimStart(s: string): (r: string)
    ensures |r| <= |s| && r == s[|s| - |r|..]
    ensures r != [] ==> !IsSpace(r[0])
    decreases |s|
  {
    if s != [] && IsSpace(s[0]) then TrimStart(s[1..]) else s
  }

  /** `lstrip` drops only whitespace. */
  lemma {:induction false} TrimStartDropsSpace(s: string)
    ensures AllSpace(s[..|s| - |TrimStart(s)|])
    decreases |s|
  {
    if s != [] && IsSpace(s[0]) {
      var t := s[1..];
      TrimStartDropsSpace(t);
      assert s[..|s| - |TrimStart(s)|] == [s[0]] + t[..|t| - |TrimStart(t)|];
    }
  }

  /** Python's `str.rstrip()`. */
  function TrimEnd(s: string): (r: string)
    ensures |r| <= |s| && r == s[..|r|]
    ensures r != [] ==> !IsSpace(r[|r| - 1])
    decreases |s|
  {
    if s != [] && IsSpace(s[|s| - 1]) then TrimEnd(s[..|s| - 1]) else s
  }

  /** `rstrip` drops only whitespace. */
  lemma {:induction false} TrimEndDropsSpace(s: string)
    ensures AllSpace(s[|TrimEnd(s)|..])
    decreases |s|
  {
    if s != [] && IsSpace(s[|s| - 1]) {
      var t := s[..|s| - 1];
      TrimEndDropsSpace(t);
      assert s[|TrimEnd(s)|..] == t[|TrimEnd(t)|..] + [s[|s| - 1]];
    }
  }

  /** Python's `str.strip()`. */
  function Strip(s: string): string {
    TrimEnd(TrimStart(s))
  }

  lemma StripEnds(s: string)
    ensures Strip(s) != [] ==> !IsSpace(Strip(s)[0]) && !IsSpace(Strip(s)[|Strip(s)| - 1])
  {
    var t := TrimStart(s);
    var r := TrimEnd(t);
    if r != [] {
      assert r[0] == t[0];
    }
  }

  lemma {:induction false} TrimStartKeeps(s: string, p: string)
    requires p != [] && !IsSpace(p[0]) && Contains(s, p)
    ensures Contains(TrimStart(s), p)
    decreases |s|
  {
    if s != [] && IsSpace(s[0]) {
      assert s[..|p|] != p by {
        assert s[..|p|][0] == s[0];
      }
      TrimStartKeeps(s[1..], p);
    }
  }

  lemma {:induction false} ContainsDropLast(s: string, p: string)
    requires p != [] && Contains(s, p)
    requires s[|s| - 1] != p[|p| - 1]
    ensures Contains(s[..|s| - 1], p)
    decreases |s|
  {
    var t := s[..|s| - 1];
    if s[..|p|] == p {
      assert s[..|p|][|p| - 1] == s[|p| - 1];
      assert |p| < |s|;
      assert t[..|p|] == p;
    } else {
      var u := s[1..];
      ContainsDropLast(u, p);
      assert u[..|u| - 1] == t[1..];
    }
  }

  lemma {:induction false} TrimEndKeeps(s: string, p: string)
    requires p != [] && !IsSpace(p[|p| - 1]) && Contains(s, p)
    ensures Contains(TrimEnd(s), p)
    decreases |s|
  {
    if s != [] && IsSpace(s[|s| - 1]) {
      ContainsDropLast(s, p);
      TrimEndKeeps(s[..|s| - 1], p);
    }
  }

  /** Stripping whitespace keeps every occurrence of a pattern that does not
      start or end with whitespace. */
  lemma StripKeeps(s: string, p: string)
    requires p != [] && !IsSpace(p[0]) && !IsSpace(p[|p| - 1])
    requires Contains(s, p)
    ensures Contains(Strip(s), p)
  {
    TrimStartKeeps(s, p);
    TrimEndKeeps(TrimStart(s), p);
  }

  function DigitChar(d: nat): char
    requires d < 10
  {
    ('0' as int + d) as char
  }

  function DigitValue(c: char): nat
    requires IsDigit(c)
  {
    c as int - '0' as int
  }

  /** JavaScript's `n.toString()` and Python's `str(n)` on a natural number:
      decimal digits without leading zeros. */
  function NatToString(n: nat): string
    decreases n
  {
    if n < 10 then [DigitChar(n)] else NatToString(n / 10) + [DigitChar(n % 10)]
  }

  /** The value of a string of decimal digits. */
  function ParseDigits(s: string): nat
    requires AllDigits(s)
    decreases |s|
  {
    if s == [] then 0 else ParseDigits(s[..|s| - 1]) * 10 + DigitValue(s[|s| - 1])
  }

  /** Reading back the decimal form of n gives n. */
  lemma {:induction false} NatToStringRoundTrip(n: nat)
    ensures NatToString(n) != [] && AllDigits(NatToString(n))
    ensures ParseDigits(NatToString(n)) == n
    decreases n
  {
    if n >= 10 {
      NatToStringRoundTrip(n / 10);
      var s := NatToString(n);
      assert s[..|s| - 1] == NatToString(n / 10);
    }
  }

  /** Distinct numbers have distinct decimal forms. */
  lemma NatToStringInjective(a: nat, b: nat)
    ensures NatToString(a) == NatToString(b) <==> a == b
  {
    NatToStringRoundTrip(a);
    NatToStringRoundTrip(b);
  }
}
