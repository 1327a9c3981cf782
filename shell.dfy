/** How `/bin/sh -c` splits a command line into words, for the quoting forms
    the backend's commands use. A command the reader does not accept is one
    the shell would expand or redirect rather than take literally. */
module Shell {
  import opened Common
  import opened Text

  /** Characters that make the shell do something other than build a word:
      operators, expansions, globbing, comments, and whitespace other than space. */
  predicate IsShellSpecial(c: char) {
    c in "|&;<>()$`*?[]#~{}!\t\n\r"
  }

  /** A character that stands for itself outside quotes. */
  predicate IsPlain(c: char) {
    c != ' ' && c != '\'' && c != '"' && c != '\\' && !IsShellSpecial(c)
  }

  /** A character that stands for itself inside double quotes. */
  predicate IsDoubleQuoteSafe(c: char) {
    c != '"' && c != '$' && c != '`' && c != '\\'
  }

  predicate AllPlain(s: string) {
    forall i :: 0 <= i < |s| ==> IsPlain(s[i])
  }

  predicate DoubleQuoteSafe(s: string) {
    forall i :: 0 <= i < |s| ==> IsDoubleQuoteSafe(s[i])
  }

  /** Lower-case letters and dots stand for themselves. */
  lemma PlainLetter(c: char)
    requires 'a' <= c <= 'z' || c == '.'
    ensures IsPlain(c)
  {
  }

  /** A word of lower-case letters and dots needs no quoting. */
  lemma LowerWordPlain(s: string)
    requires forall i :: 0 <= i < |s| ==> 'a' <= s[i] <= 'z' || s[i] == '.'
    ensures AllPlain(s)
  {
    forall i | 0 <= i < |s|
      ensures IsPlain(s[i])
    {
      PlainLetter(s[i]);
    }
  }

  /** The first position at or after i holding c, or |s| when there is none. */
  function IndexOf(s: string, c: char, i: nat): (k: nat)
    requires i <= |s|
    ensures i <= k <= |s|
    ensures k < |s| ==> s[k] == c
    decreases |s| - i
  {
    if i == |s| || s[i] == c then i else IndexOf(s, c, i + 1)
  }

  /** No position before the one `IndexOf` finds holds c. */
  lemma {:induction false} IndexOfFirst(s: string, c: char, i: nat)
    requires i <= |s|
    ensures forall j :: i <= j < IndexOf(s, c, i) ==> s[j] != c
    decreases |s| - i
  {
    if i < |s| && s[i] != c {
      IndexOfFirst(s, c, i + 1);
    }
  }

  /** The word in progress, if any, as a list of finished words. */
  function Finish(cur: Option<string>): seq<string> {
    if cur.Some? then [cur.value] else []
  }

  /** Reads s, given the word in progress and the words finished so far.
      Spaces end words; quotes and backslashes only change how a word is
      spelled, so `a"b c"'d'` is the single word `ab cd`. */
  function Lex(s: string, cur: Option<string>, acc: seq<string>): Option<seq<string>>
    decreases |s|
  {
    if s == [] then Some(acc + Finish(cur))
    else if s[0] == ' ' then Lex(s[1..], None, acc + Finish(cur))
    else if s[0] == '\'' then
      var k := IndexOf(s, '\'', 1);
      if k == |s| then None else Lex(s[k + 1..], Some(OrEmpty(cur) + s[1..k]), acc)
    else if s[0] == '"' then
      var k := IndexOf(s, '"', 1);
      if k == |s| || !DoubleQuoteSafe(s[1..k]) then None
      else Lex(s[k + 1..], Some(OrEmpty(cur) + s[1..k]), acc)
    else if s[0] == '\\' then
      if |s| == 1 || s[1] == '\n' then None else Lex(s[2..], Some(OrEmpty(cur) + [s[1]]), acc)
    else if IsShellSpecial(s[0]) then None
    else Lex(s[1..], Some(OrEmpty(cur) + [s[0]]), acc)
  }

  /** The words `/bin/sh -c cmd` runs, when it takes every character literally. */
  function Words(cmd: string): Option<seq<string>> {
    Lex(cmd, None, [])
  }

  /** One plain character extends the word in progress. */
  lemma LexPlainChar(s: string, cur: Option<string>, acc: seq<string>)
    requires s != [] && IsPlain(s[0])
    ensures Lex(s, cur, acc) == Lex(s[1..], Some(OrEmpty(cur) + [s[0]]), acc)
  {
  }

  /** A backslash makes the next character (other than a line feed) literal. */
  lemma LexEscaped(s: string, cur: Option<string>, acc: seq<string>)
    requires |s| >= 2 && s[0] == '\\' && s[1] != '\n'
    ensures Lex(s, cur, acc) == Lex(s[2..], Some(OrEmpty(cur) + [s[1]]), acc)
  {
  }

  /** Plain characters extend the word in progress. */
  lemma {:induction false} LexPlain(w: string, rest: string, cur: Option<string>, acc: seq<string>)
    requires w != [] && AllPlain(w)
    ensures Lex(w + rest, cur, acc) == Lex(rest, Some(OrEmpty(cur) + w), acc)
    decreases |w|
  {
    var s := w + rest;
    assert s[0] == w[0] && s[1..] == w[1..] + rest;
    LexPlainChar(s, cur, acc);
    var cur1 := Some(OrEmpty(cur) + [w[0]]);
    if |w| == 1 {
      assert s[1..] == rest;
      assert [w[0]] == w;
    } else {
      LexPlain(w[1..], rest, cur1, acc);
      assert OrEmpty(cur) + [w[0]] + w[1..] == OrEmpty(cur) + w;
    }
  }

  /** A space ends the word in progress. */
  lemma LexSpace(rest: string, cur: Option<string>, acc: seq<string>)
    ensures Lex(" " + rest, cur, acc) == Lex(rest, None, acc + Finish(cur))
  {
    assert (" " + rest)[1..] == rest;
  }

  /** Two plain words, each followed by a space, become the first two words. */
  lemma LexTwoPlain(a: string, b: string, rest: string)
    requires a != [] && AllPlain(a) && b != [] && AllPlain(b)
    ensures Lex(a + " " + b + " " + rest, None, []) == Lex(rest, None, [a, b])
  {
    var r2 := " " + rest;
    var r1 := b + r2;
    var r0 := " " + r1;
    assert a + " " + b + " " + rest == a + r0;
    LexPlain(a, r0, None, []);
    assert OrEmpty(None) + a == a;
    LexSpace(r1, Some(a), []);
    assert [] + Finish(Some(a)) == [a];
    LexPlain(b, r2, None, [a]);
    assert OrEmpty(None) + b == b;
    LexSpace(rest, Some(b), [a]);
    assert [a] + Finish(Some(b)) == [a, b];
  }

  /** A double-quoted stretch without `"`, `$`, a backquote or a backslash adds
      exactly its contents to the word in progress. */
  lemma LexDoubleQuoted(x: string, rest: string, cur: Option<string>, acc: seq<string>)
    requires DoubleQuoteSafe(x)
    ensures Lex("\"" + x + "\"" + rest, cur, acc) == Lex(rest, Some(OrEmpty(cur) + x), acc)
  {
    var s := "\"" + x + "\"" + rest;
    assert forall j :: 1 <= j < |x| + 1 ==> s[j] == x[j - 1];
    assert s[|x| + 1] == '"';
    var k := IndexOf(s, '"', 1);
    IndexOfFirst(s, '"', 1);
    assert k == |x| + 1;
    assert s[1..k] == x;
    assert s[k + 1..] == rest;
  }

  /** A single-quoted stretch without `'` adds exactly its contents. */
  lemma LexSingleQuoted(x: string, rest: string, cur: Option<string>, acc: seq<string>)
    requires forall j :: 0 <= j < |x| ==> x[j] != '\''
    ensures Lex("'" + x + "'" + rest, cur, acc) == Lex(rest, Some(OrEmpty(cur) + x), acc)
  {
    var s := "'" + x + "'" + rest;
    assert forall j :: 1 <= j < |x| + 1 ==> s[j] == x[j - 1];
    assert s[|x| + 1] == '\'';
    var k := IndexOf(s, '\'', 1);
    IndexOfFirst(s, '\'', 1);
    assert k == |x| + 1;
    assert s[1..k] == x;
    assert s[k + 1..] == rest;
  }

  /** An argument quoted so that the shell reads it back unchanged: inside
      single quotes nothing is special, and each `'` of the argument is written
      as `'\''` (close the quotes, an escaped quote, reopen). */
  function SingleQuote(x: string): string
    decreases |x|
  {
    var k := IndexOf(x, '\'', 0);
    if k == |x| then "'" + x + "'" else "'" + x[..k] + "'" + "\\'" + SingleQuote(x[k + 1..])
  }

  /** Concatenation is associative. */
  lemma ConcatAssoc(a: string, b: string, c: string)
    ensures a + b + c == a + (b + c)
  {
  }

  /** `SingleQuote` of an argument without `'`. */
  lemma SingleQuotePlain(x: string, rest: string)
    requires IndexOf(x, '\'', 0) == |x|
    ensures SingleQuote(x) + rest == "'" + x + "'" + rest
  {
  }

  /** `SingleQuote` of an argument whose first `'` is at k, followed by the rest. */
  lemma SingleQuoteAt(x: string, k: nat, rest: string)
    requires k < |x| && IndexOf(x, '\'', 0) == k
    ensures SingleQuote(x) + rest == "'" + x[..k] + "'" + ("\\'" + (SingleQuote(x[k + 1..]) + rest))
  {
    var h, e, t := "'" + x[..k] + "'", "\\'", SingleQuote(x[k + 1..]);
    assert SingleQuote(x) == h + e + t;
    ConcatAssoc(h + e, t, rest);
    ConcatAssoc(h, e, t + rest);
  }

  /** An escaped quote adds a quote to the word in progress. */
  lemma LexEscapedQuote(tail: string, cur: Option<string>, acc: seq<string>)
    ensures Lex("\\'" + tail, cur, acc) == Lex(tail, Some(OrEmpty(cur) + "'"), acc)
  {
    var e := "\\'" + tail;
    assert e[0] == '\\' && e[1] == '\'' && e[2..] == tail;
    LexEscaped(e, cur, acc);
    assert [e[1]] == "'";
  }

  /** Cutting a string around a quote at k and putting the quote back gives it again. */
  lemma QuoteSplit(p: string, x: string, k: nat)
    requires k < |x| && x[k] == '\''
    ensures p + x[..k] + "'" + x[k + 1..] == p + x
  {
    assert [x[k]] == "'";
    assert x == x[..k] + [x[k]] + x[k + 1..];
  }

  /** Whatever x holds, its single-quoted form adds exactly x to the word in progress. */
  lemma {:induction false} LexSingleQuote(x: string, rest: string, cur: Option<string>, acc: seq<string>)
    ensures Lex(SingleQuote(x) + rest, cur, acc) == Lex(rest, Some(OrEmpty(cur) + x), acc)
    decreases |x|
  {
    var k := IndexOf(x, '\'', 0);
    IndexOfFirst(x, '\'', 0);
    if k == |x| {
      SingleQuotePlain(x, rest);
      LexSingleQuoted(x, rest, cur, acc);
    } else {
      var a, b := x[..k], x[k + 1..];
      assert forall j :: 0 <= j < |a| ==> a[j] != '\'';
      var tail := SingleQuote(b) + rest;
      var c1 := OrEmpty(cur) + a;
      var c2 := c1 + "'";
      SingleQuoteAt(x, k, rest);
      calc {
        Lex(SingleQuote(x) + rest, cur, acc);
        Lex("'" + a + "'" + ("\\'" + tail), cur, acc);
        { LexSingleQuoted(a, "\\'" + tail, cur, acc); }
        Lex("\\'" + tail, Some(c1), acc);
        { LexEscapedQuote(tail, Some(c1), acc); }
        Lex(tail, Some(c2), acc);
        { LexSingleQuote(b, rest, Some(c2), acc); }
        Lex(rest, Some(c2 + b), acc);
        { QuoteSplit(OrEmpty(cur), x, k); }
        Lex(rest, Some(OrEmpty(cur) + x), acc);
      }
    }
  }
}
