/** Sequence relations shared by the filter and the chart aggregations. */
module Seqs {

  /** `sub` keeps some of the elements of `s`, in the order they have in `s`. */
  predicate IsSubsequence<T(==)>(sub: seq<T>, s: seq<T>)
    decreases |s|
  {
    sub == [] ||
    (s != [] &&
     ((sub[0] == s[0] && IsSubsequence(sub[1..], s[1..])) || IsSubsequence(sub, s[1..])))
  }

  /** No value occurs twice. */
  predicate Distinct<T(==)>(s: seq<T>)
  {
    forall i, j :: 0 <= i < j < |s| ==> s[i] != s[j]
  }
}

/**
 * The string operations the dashboard takes from JavaScript:
 * `toLowerCase`, `toUpperCase`, `includes` and the ordering that
 * `localeCompare` gives on the month keys.
 */
module Text {

  /** Lower-cases one ASCII letter; every other character is kept. */
  function LowerChar(c: char): char
  {
    if 'A' <= c <= 'Z' then (c as int + 32) as char else c
  }

  /** Upper-cases one ASCII letter; every other character is kept. */
  function UpperChar(c: char): char
  {
    if 'a' <= c <= 'z' then (c as int - 32) as char else c
  }

  /** `s.toLowerCase()`, restricted to ASCII letters. */
  function ToLower(s: string): (r: string)
    ensures |r| == |s|
    ensures forall i :: 0 <= i < |s| ==> r[i] == LowerChar(s[i])
  {
    if s == [] then [] else [LowerChar(s[0])] + ToLower(s[1..])
  }

  /** `s.toUpperCase()`, restricted to ASCII letters. */
  function ToUpper(s: string): (r: string)
    ensures |r| == |s|
    ensures forall i :: 0 <= i < |s| ==> r[i] == UpperChar(s[i])
  {
    if s == [] then [] else [UpperChar(s[0])] + ToUpper(s[1..])
  }

  /** Lower-casing twice is lower-casing once. */
  lemma ToLowerIdempotent(s: string)
    ensures ToLower(ToLower(s)) == ToLower(s)
  {
    var once := ToLower(s);
    var twice := ToLower(once);
    forall i | 0 <= i < |s|
      ensures twice[i] == once[i]
    {
      assert once[i] == LowerChar(s[i]);
    }
  }

  /** Lower-casing forgets an earlier upper-casing. */
  lemma ToLowerAfterToUpper(s: string)
    ensures ToLower(ToUpper(s)) == ToLower(s)
  {
    var lhs := ToLower(ToUpper(s));
    var rhs := ToLower(s);
    forall i | 0 <= i < |s|
      ensures lhs[i] == rhs[i]
    {
      assert ToUpper(s)[i] == UpperChar(s[i]);
    }
  }

  /** An upper-cased string holds no lower-case ASCII letter. */
  lemma ToUpperHasNoLowerCase(s: string)
    ensures forall i :: 0 <= i < |s| ==> !('a' <= ToUpper(s)[i] <= 'z')
  {
  }

  /** `q` occurs in `s` starting at index `i`. */
  predicate OccursAt(s: string, q: string, i: int)
  {
    0 <= i && i + |q| <= |s| && s[i..i + |q|] == q
  }

  /**
   * `s.includes(q)`: tries every start position from the left. The contract
   * is the textbook definition of a substring.
   */
  function Includes(s: string, q: string): (r: bool)
    ensures r <==> exists i :: OccursAt(s, q, i)
    decreases |s|
  {
    if |q| > |s| then false
    else if s[..|q|] == q then assert OccursAt(s, q, 0); true
    else
      var tail := Includes(s[1..], q);
      assert tail <==> exists i :: OccursAt(s, q, i) by {
        forall i | OccursAt(s[1..], q, i)
          ensures OccursAt(s, q, i + 1)
        {
          assert s[1..][i..i + |q|] == s[i + 1..i + 1 + |q|];
        }
        forall i | OccursAt(s, q, i)
          ensures i > 0 && OccursAt(s[1..], q, i - 1)
        {
          assert s[1..][i - 1..i - 1 + |q|] == s[i..i + |q|];
        }
      }
      tail
  }

  /**
   * Code-point lexicographic order on strings: a proper prefix comes first,
   * otherwise the first differing character decides.
   */
  predicate StrLess(a: string, b: string)
    decreases |a|
  {
    if |a| == 0 then |b| > 0
    else if |b| == 0 then false
    else a[0] < b[0] || (a[0] == b[0] && StrLess(a[1..], b[1..]))
  }

  lemma {:induction false} StrLessIrreflexive(a: string)
    ensures !StrLess(a, a)
    decreases |a|
  {
    if |a| > 0 {
      StrLessIrreflexive(a[1..]);
    }
  }

  lemma {:induction false} StrLessTransitive(a: string, b: string, c: string)
    requires StrLess(a, b) && StrLess(b, c)
    ensures StrLess(a, c)
    decreases |a|
  {
    if |a| > 0 && a[0] == b[0] && b[0] == c[0] {
      StrLessTransitive(a[1..], b[1..], c[1..]);
    }
  }

  /** Two different strings are always ordered one way or the other. */
  lemma {:induction false} StrLessTotal(a: string, b: string)
    requires a != b
    ensures StrLess(a, b) || StrLess(b, a)
    decreases |a|
  {
    if |a| > 0 && |b| > 0 && a[0] == b[0] {
      assert a == [a[0]] + a[1..] && b == [b[0]] + b[1..];
      StrLessTotal(a[1..], b[1..]);
    }
  }
}
