/** String building blocks shared by the table formatter: repetition of one
    character (the `" " * n` and `"-" * n` of the formatter), the padded
    column cell, and trailing-space trimming used to read a cell back. */
module Text {

  /** The one-character string `c` repeated `n` times, as Python's `c * n`:
      the empty string when `n` is zero or negative. */
  function Repeat(c: char, n: int): (s: string)
    ensures |s| == if n <= 0 then 0 else n
    ensures forall i :: 0 <= i < |s| ==> s[i] == c
  {
    if n <= 0 then "" else seq(n, _ => c)
  }

  /** Whether `s` ends in a space (never for the empty string). */
  predicate EndsInSpace(s: string)
  {
    |s| > 0 && s[|s| - 1] == ' '
  }

  /** `s` with every trailing space removed. */
  function TrimRight(s: string): (r: string)
    ensures r <= s && !EndsInSpace(r)
    ensures forall i :: |r| <= i < |s| ==> s[i] == ' '
  {
    if EndsInSpace(s) then TrimRight(s[..|s| - 1]) else s
  }

  /** Trimming undoes any amount of space padding of a string that does not
      itself end in a space. */
  lemma {:induction false} TrimPadding(s: string, n: int)
    requires !EndsInSpace(s)
    ensures TrimRight(s + Repeat(' ', n)) == s
  {
    if n > 0 {
      var t := s + Repeat(' ', n);
      assert EndsInSpace(t);
      assert t[..|t| - 1] == s + Repeat(' ', n - 1);
      TrimPadding(s, n - 1);
    }
  }
}
