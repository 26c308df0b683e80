/** Values shared by every part of the pipeline: nullable cells and the
    handful of string operations the dashboard applies to text columns. */
module Base {

  /** A cell that pandas may hold as missing (NaN / NaT) after coercion. */
  datatype Option<+T> = None | Some(value: T)

  /** How a pandas `sum` reads a numeric cell: a missing value adds nothing. */
  function Val(cell: Option<int>): int
  {
    match cell
    case None => 0
    case Some(v) => v
  }

  function Min(a: int, b: int): int
  {
    if a <= b then a else b
  }

  /** Lower-cases one character. Only the ASCII letters are mapped. */
  function LowerChar(c: char): char
  {
    if 'A' <= c <= 'Z' then (c as int + 32) as char else c
  }

  /** `str.lower()` on the ASCII letters; every other character is kept. */
  function Lower(s: string): (r: string)
    ensures |r| == |s|
    ensures forall i :: 0 <= i < |s| ==> r[i] == LowerChar(s[i])
  {
    if s == [] then [] else [LowerChar(s[0])] + Lower(s[1..])
  }

  /** Lowering twice is lowering once. */
  lemma LowerIdempotent(s: string)
    ensures Lower(Lower(s)) == Lower(s)
  {
    assert forall i :: 0 <= i < |s| ==> Lower(Lower(s))[i] == Lower(s)[i];
  }

  /** Python's `pat in s`, written as a scan over the suffixes of `s`. */
  predicate Contains(s: string, pat: string)
  {
    pat <= s || (|s| > 0 && Contains(s[1..], pat))
  }

  /** `pat` occurs in `s` starting at position `i`. */
  predicate OccursAt(s: string, pat: string, i: nat)
  {
    i + |pat| <= |s| && s[i..i + |pat|] == pat
  }

  /** The scan finds `pat` exactly when `pat` occurs at some position of `s`. */
  lemma {:induction false} ContainsAt(s: string, pat: string)
    ensures Contains(s, pat) <==> exists i: nat :: OccursAt(s, pat, i)
  {
    if pat <= s {
      assert OccursAt(s, pat, 0);
    } else if |s| == 0 {
      assert |pat| > 0;
    } else {
      ContainsAt(s[1..], pat);
      if Contains(s[1..], pat) {
        var i: nat :| OccursAt(s[1..], pat, i);
        assert s[i + 1..i + 1 + |pat|] == s[1..][i..i + |pat|];
        assert OccursAt(s, pat, i + 1);
      } else {
        forall i: nat ensures !OccursAt(s, pat, i) {
          if i == 0 {
            assert !(pat <= s);
          } else if OccursAt(s, pat, i) {
            var t := s[1..];
            assert t[i - 1..i - 1 + |pat|] == s[i..i + |pat|];
            assert OccursAt(t, pat, i - 1);
          }
        }
      }
    }
  }

  /** A text lacking one of the characters of a pattern does not contain
      the pattern. */
  lemma MissingCharExcludes(s: string, pat: string, j: nat)
    requires j < |pat| && pat[j] !in s
    ensures !Contains(s, pat)
  {
    ContainsAt(s, pat);
  }

  /** Any text containing a pattern contains every prefix of that pattern. */
  lemma ContainsPrefixOfPattern(s: string, pat: string, pre: string)
    requires pre <= pat
    requires Contains(s, pat)
    ensures Contains(s, pre)
  {
    ContainsAt(s, pat);
    var i: nat :| OccursAt(s, pat, i);
    assert s[i..i + |pre|] == pat[..|pre|] == pre;
    assert OccursAt(s, pre, i);
    ContainsAt(s, pre);
  }
}
