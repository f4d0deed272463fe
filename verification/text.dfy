/**
 Strings as sequences of characters, and the substring test that a
 case-insensitive JavaScript regular expression made of plain ASCII letters
 performs. In non-unicode mode `/abc/i` folds characters with `toUpperCase`
 but never maps a non-ASCII character onto an ASCII one, so for the ASCII
 patterns used here the test is exactly substring search after ASCII
 lower-casing.
 */
module Text {

  function LowerChar(c: char): char {
    if 'A' <= c <= 'Z' then (c as int + 32) as char else c
  }

  function UpperChar(c: char): char {
    if 'a' <= c <= 'z' then (c as int - 32) as char else c
  }

  function Lower(s: string): string {
    seq(|s|, i requires 0 <= i < |s| => LowerChar(s[i]))
  }

  function Upper(s: string): string {
    seq(|s|, i requires 0 <= i < |s| => UpperChar(s[i]))
  }

  /** `p` occurs in `s` starting at position i. */
  predicate OccursAt(s: string, p: string, i: int) {
    0 <= i && i + |p| <= |s| && s[i..i + |p|] == p
  }

  /** `p` occurs somewhere in `s`. */
  predicate Contains(s: string, p: string) {
    exists i :: 0 <= i <= |s| && OccursAt(s, p, i)
  }

  /** `p` matches `s` at position i, character by character up to letter case. */
  predicate FoldedMatchAt(s: string, p: string, i: int) {
    0 <= i && i + |p| <= |s| && forall j :: 0 <= j < |p| ==> LowerChar(s[i + j]) == LowerChar(p[j])
  }

  /** What `/p/i.test(s)` answers for an ASCII pattern `p`. */
  predicate ContainsIgnoreCase(s: string, p: string) {
    Contains(Lower(s), Lower(p))
  }

  /**
   The case-insensitive test holds exactly when some position of `s` matches
   `p` character by character, ignoring letter case.
   */
  lemma CaseInsensitiveMatch(s: string, p: string)
    ensures ContainsIgnoreCase(s, p) <==> exists i :: 0 <= i <= |s| && FoldedMatchAt(s, p, i)
  {
    FoldedOccurrence(s, p);
  }

  /** An occurrence after lower-casing is a case-insensitive match, and back. */
  lemma FoldedOccurrence(s: string, p: string)
    ensures forall i :: OccursAt(Lower(s), Lower(p), i) <==> FoldedMatchAt(s, p, i)
  {
    forall i | FoldedMatchAt(s, p, i)
      ensures OccursAt(Lower(s), Lower(p), i)
    {
      assert Lower(s)[i..i + |p|] == Lower(p);
    }
    forall i | OccursAt(Lower(s), Lower(p), i)
      ensures FoldedMatchAt(s, p, i)
    {
      forall j | 0 <= j < |p|
        ensures LowerChar(s[i + j]) == LowerChar(p[j])
      {
        assert Lower(s)[i..i + |p|][j] == Lower(p)[j];
      }
    }
  }

  /** Patterns that differ only in letter case match the same texts. */
  lemma SameFoldingPattern(s: string, p: string, q: string)
    requires Lower(p) == Lower(q)
    ensures ContainsIgnoreCase(s, p) == ContainsIgnoreCase(s, q)
  {
  }

  lemma LowerAppend(s: string, t: string)
    ensures Lower(s + t) == Lower(s) + Lower(t)
  {
  }

  lemma LowerUpper(s: string)
    ensures Lower(Upper(s)) == Lower(s)
    ensures Lower(Lower(s)) == Lower(s)
  {
  }

  /** Text appended after a match cannot hide it. */
  lemma ContainsAppend(s: string, t: string, p: string)
    requires Contains(s, p)
    ensures Contains(s + t, p)
  {
    var i :| 0 <= i <= |s| && OccursAt(s, p, i);
    assert (s + t)[i..i + |p|] == s[i..i + |p|];
    assert OccursAt(s + t, p, i);
  }

  lemma ContainsIgnoreCaseAppend(s: string, t: string, p: string)
    requires ContainsIgnoreCase(s, p)
    ensures ContainsIgnoreCase(s + t, p)
  {
    LowerAppend(s, t);
    ContainsAppend(Lower(s), Lower(t), Lower(p));
  }

  /** No character of `s` is the letter `c`, in either case. */
  predicate Lacks(s: string, c: char) {
    forall i :: 0 <= i < |s| ==> LowerChar(s[i]) != c
  }

  lemma LacksAppend(s: string, t: string, c: char)
    requires Lacks(s, c) && Lacks(t, c)
    ensures Lacks(s + t, c)
  {
    forall i | 0 <= i < |s + t|
      ensures LowerChar((s + t)[i]) != c
    {
      if i >= |s| {
        assert (s + t)[i] == t[i - |s|];
      }
    }
  }

  /** A pattern with a letter that the text lacks, in either case, does not occur in it. */
  lemma MissingLetter(s: string, p: string, j: nat)
    requires j < |p| && Lacks(s, LowerChar(p[j]))
    ensures !ContainsIgnoreCase(s, p)
  {
    if ContainsIgnoreCase(s, p) {
      ContainsChar(Lower(s), Lower(p), j);
      assert false;
    }
  }

  /** A pattern placed between two texts occurs, whatever their letter case. */
  lemma ContainsIgnoreCaseBetween(a: string, p: string, b: string)
    ensures ContainsIgnoreCase(a + p + b, p)
  {
    LowerAppend(a, p);
    LowerAppend(a + p, b);
    var s := Lower(a + p + b);
    assert s == Lower(a) + Lower(p) + Lower(b);
    assert s[|a|..|a| + |p|] == Lower(p);
    assert OccursAt(s, Lower(p), |a|);
  }

  /** Every character of an occurring pattern occurs in the text. */
  lemma ContainsChar(s: string, p: string, j: nat)
    requires Contains(s, p) && j < |p|
    ensures p[j] in s
  {
    var i :| 0 <= i <= |s| && OccursAt(s, p, i);
    assert s[i + j] == s[i..i + |p|][j];
  }

}
