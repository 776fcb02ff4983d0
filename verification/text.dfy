/** The two string operations the approval test is built from: Python's `str.lower`
    (restricted to ASCII) and the substring operator `pattern in text`. */
module Text {

  /** Lower-cases one character: 'A'..'Z' map to 'a'..'z', everything else is kept. */
  function LowerChar(c: char): (r: char)
    ensures 'A' <= c <= 'Z' ==> 'a' <= r <= 'z' && r as int - 'a' as int == c as int - 'A' as int
    ensures !('A' <= c <= 'Z') ==> r == c
  {
    if 'A' <= c <= 'Z' then (c as int - 'A' as int + 'a' as int) as char else c
  }

  /** `s.lower()` for ASCII text: same length, every character folded on its own. */
  function Lower(s: string): (r: string)
    ensures |r| == |s|
    ensures forall i :: 0 <= i < |s| ==> r[i] == LowerChar(s[i])
  {
    seq(|s|, i requires 0 <= i < |s| => LowerChar(s[i]))
  }

  /** Folding a slice is slicing the folded text. */
  lemma LowerSlice(s: string, i: nat, j: nat)
    requires i <= j <= |s|
    ensures Lower(s[i..j]) == Lower(s)[i..j]
  {
    var folded := Lower(s[i..j]);
    var sliced := Lower(s)[i..j];
    forall k | 0 <= k < |folded|
      ensures folded[k] == sliced[k]
    {
      assert s[i..j][k] == s[i + k];
    }
    assert folded == sliced;
  }

  /** Text without upper-case ASCII letters is its own lower-case form. */
  lemma LowerKeepsLowerCase(s: string)
    requires forall i :: 0 <= i < |s| ==> !('A' <= s[i] <= 'Z')
    ensures Lower(s) == s
  {
  }

  /** `pattern` sits in `text` starting at index `i`. */
  predicate OccursAt(text: string, pattern: string, i: int)
  {
    0 <= i && i + |pattern| <= |text| && text[i..i + |pattern|] == pattern
  }

  /** Python's `pattern in text`: some slice of the text equals the pattern. */
  ghost predicate Contains(text: string, pattern: string)
  {
    exists i :: OccursAt(text, pattern, i)
  }

  /** The substring test as a left-to-right scan over the start positions. */
  method ContainsScan(text: string, pattern: string) returns (found: bool)
    ensures found <==> Contains(text, pattern)
  {
    if |text| < |pattern| {
      return false;
    }
    var i := 0;
    while i <= |text| - |pattern|
      invariant 0 <= i <= |text| - |pattern| + 1
      invariant forall j :: 0 <= j < i ==> !OccursAt(text, pattern, j)
    {
      if text[i..i + |pattern|] == pattern {
        assert OccursAt(text, pattern, i);
        return true;
      }
      i := i + 1;
    }
    assert forall j :: !OccursAt(text, pattern, j);
    return false;
  }
}
