/** The order Python's `sorted` puts file names in: strings compare code
    point by code point, and a proper prefix comes first. */
module NameOrder {

  /** `a < b` on Python strings. */
  function Less(a: string, b: string): bool
    decreases |a|
  {
    if a == [] then b != []
    else if b == [] then false
    else if a[0] != b[0] then a[0] < b[0]
    else Less(a[1..], b[1..])
  }

  /** `a <= b` on Python strings. */
  predicate Le(a: string, b: string) {
    !Less(b, a)
  }

  lemma {:induction false} LessIrreflexive(a: string)
    ensures !Less(a, a)
    decreases |a|
  {
    if a != [] {
      LessIrreflexive(a[1..]);
    }
  }

  /** Any two different names are ordered one way or the other, and not both. */
  lemma {:induction false} LessTotal(a: string, b: string)
    ensures a == b || Less(a, b) || Less(b, a)
    ensures !(Less(a, b) && Less(b, a))
    decreases |a|
  {
    if a != [] && b != [] && a[0] == b[0] {
      LessTotal(a[1..], b[1..]);
      if a[1..] == b[1..] {
        assert a == [a[0]] + a[1..] && b == [b[0]] + b[1..];
      }
    }
  }

  lemma {:induction false} LessTransitive(a: string, b: string, c: string)
    requires Less(a, b) && Less(b, c)
    ensures Less(a, c)
    decreases |a|
  {
    if a != [] && a[0] == b[0] && b[0] == c[0] {
      LessTransitive(a[1..], b[1..], c[1..]);
    }
  }

  lemma LeTransitive(a: string, b: string, c: string)
    requires Le(a, b) && Le(b, c)
    ensures Le(a, c)
  {
    LessTotal(a, b);
    if Less(c, a) {
      if a == b {
      } else {
        LessTransitive(c, a, b);
      }
    }
  }

  /** Every name is at most every later one. */
  predicate Sorted(s: seq<string>) {
    forall i, j :: 0 <= i < j < |s| ==> Le(s[i], s[j])
  }

  /** Inserts x before the first name that is not smaller than it. */
  function Insert(x: string, s: seq<string>): (r: seq<string>)
    ensures multiset(r) == multiset(s) + multiset{x}
  {
    if s == [] then [x]
    else if Le(x, s[0]) then [x] + s
    else
      assert s == [s[0]] + s[1..];
      [s[0]] + Insert(x, s[1..])
  }

  lemma {:induction false} InsertSorted(x: string, s: seq<string>)
    requires Sorted(s)
    ensures Sorted(Insert(x, s))
  {
    if s != [] {
      if Le(x, s[0]) {
        var r := Insert(x, s);
        forall j | 1 <= j < |r|
          ensures Le(x, r[j])
        {
          assert r[j] == s[j - 1];
          if j == 1 {
            LessIrreflexive(s[0]);
          }
          LeTransitive(x, s[0], r[j]);
        }
      } else {
        var t := Insert(x, s[1..]);
        InsertSorted(x, s[1..]);
        LessTotal(x, s[0]);
        var r := [s[0]] + t;
        forall j | 0 <= j < |t|
          ensures Le(s[0], t[j])
        {
          assert t[j] in multiset(t);
          if t[j] != x {
            assert t[j] in multiset(s[1..]);
            var k :| 0 <= k < |s[1..]| && s[1..][k] == t[j];
            assert s[k + 1] == t[j];
          }
        }
        assert forall i, j :: 0 <= i < j < |r| ==> Le(r[i], r[j]);
      }
    }
  }

  /** Python's `sorted` on a list of names: insertion sort, which is stable. */
  function SortNames(s: seq<string>): (r: seq<string>)
    ensures multiset(r) == multiset(s)
  {
    if s == [] then []
    else
      assert s == s[..|s| - 1] + [s[|s| - 1]];
      Insert(s[|s| - 1], SortNames(s[..|s| - 1]))
  }

  /** The result is ordered and holds exactly the given names. */
  lemma {:induction false} SortNamesSpec(s: seq<string>)
    ensures Sorted(SortNames(s))
    ensures multiset(SortNames(s)) == multiset(s)
    ensures |SortNames(s)| == |s|
    ensures forall x :: x in SortNames(s) <==> x in s
  {
    if s != [] {
      SortNamesSpec(s[..|s| - 1]);
      InsertSorted(s[|s| - 1], SortNames(s[..|s| - 1]));
    }
    assert |multiset(SortNames(s))| == |multiset(s)|;
    forall x
      ensures x in SortNames(s) <==> x in s
    {
      assert x in SortNames(s) <==> x in multiset(SortNames(s));
      assert x in s <==> x in multiset(s);
    }
  }
}
