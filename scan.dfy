/** Runs of one character class, the building block of the cell-reference
    patterns: a greedy `\d+` or `[a-zA-Z]+` takes the longest run. */
module Scan {
  import opened Text

  /** Length of the longest run of digits starting at `i`. */
  function DigitRun(s: string, i: nat): (n: nat)
    requires i <= |s|
    ensures i + n <= |s|
    decreases |s| - i
  {
    if i == |s| || !IsDigit(s[i]) then 0 else 1 + DigitRun(s, i + 1)
  }

  /** Length of the longest run of ASCII letters starting at `i`. */
  function LetterRun(s: string, i: nat): (n: nat)
    requires i <= |s|
    ensures i + n <= |s|
    decreases |s| - i
  {
    if i == |s| || !IsLetter(s[i]) then 0 else 1 + LetterRun(s, i + 1)
  }

  lemma {:induction false} DigitRunDigits(s: string, i: nat)
    requires i <= |s|
    ensures AllDigits(s[i..i + DigitRun(s, i)])
    ensures i + DigitRun(s, i) == |s| || !IsDigit(s[i + DigitRun(s, i)])
    decreases |s| - i
  {
    if i < |s| && IsDigit(s[i]) {
      DigitRunDigits(s, i + 1);
      assert s[i..i + DigitRun(s, i)] == [s[i]] + s[i + 1..i + 1 + DigitRun(s, i + 1)];
    }
  }

  lemma {:induction false} LetterRunLetters(s: string, i: nat)
    requires i <= |s|
    ensures AllLetters(s[i..i + LetterRun(s, i)])
    ensures i + LetterRun(s, i) == |s| || !IsLetter(s[i + LetterRun(s, i)])
    decreases |s| - i
  {
    if i < |s| && IsLetter(s[i]) {
      LetterRunLetters(s, i + 1);
      assert s[i..i + LetterRun(s, i)] == [s[i]] + s[i + 1..i + 1 + LetterRun(s, i + 1)];
    }
  }

  lemma {:induction false} DigitRunIs(s: string, i: nat, j: nat)
    requires i <= j <= |s| && forall k | i <= k < j :: IsDigit(s[k])
    requires j == |s| || !IsDigit(s[j])
    ensures DigitRun(s, i) == j - i
    decreases j - i
  {
    if i < j {
      DigitRunIs(s, i + 1, j);
    }
  }

  lemma {:induction false} LetterRunIs(s: string, i: nat, j: nat)
    requires i <= j <= |s| && forall k | i <= k < j :: IsLetter(s[k])
    requires j == |s| || !IsLetter(s[j])
    ensures LetterRun(s, i) == j - i
    decreases j - i
  {
    if i < j {
      LetterRunIs(s, i + 1, j);
    }
  }

  lemma DigitsAt(s: string, i: nat, j: nat)
    requires i <= j <= |s| && AllDigits(s[i..j])
    ensures forall k | i <= k < j :: IsDigit(s[k])
  {
    forall k | i <= k < j
      ensures IsDigit(s[k])
    {
      assert s[i..j][k - i] == s[k];
    }
  }

  lemma LettersAt(s: string, i: nat, j: nat)
    requires i <= j <= |s| && AllLetters(s[i..j])
    ensures forall k | i <= k < j :: IsLetter(s[k])
  {
    forall k | i <= k < j
      ensures IsLetter(s[k])
    {
      assert s[i..j][k - i] == s[k];
    }
  }

  lemma SliceOfSlice(s: string, i: nat, j: nat, k: nat, l: nat)
    requires i <= j <= |s| && k <= l <= j - i
    ensures s[i..j][k..l] == s[i + k..i + l]
  {
    assert forall n | 0 <= n < l - k :: s[i..j][k..l][n] == s[i + k + n];
  }

  /** Length of the longest run of upper-case letters starting at `i`. */
  function UpperRun(s: string, i: nat): (n: nat)
    requires i <= |s|
    ensures i + n <= |s|
    decreases |s| - i
  {
    if i == |s| || !IsUpper(s[i]) then 0 else 1 + UpperRun(s, i + 1)
  }

  lemma {:induction false} UpperRunUppers(s: string, i: nat)
    requires i <= |s|
    ensures AllUpper(s[i..i + UpperRun(s, i)])
    ensures i + UpperRun(s, i) == |s| || !IsUpper(s[i + UpperRun(s, i)])
    decreases |s| - i
  {
    if i < |s| && IsUpper(s[i]) {
      UpperRunUppers(s, i + 1);
      assert s[i..i + UpperRun(s, i)] == [s[i]] + s[i + 1..i + 1 + UpperRun(s, i + 1)];
    }
  }

  lemma {:induction false} UpperRunIs(s: string, i: nat, j: nat)
    requires i <= j <= |s| && forall k | i <= k < j :: IsUpper(s[k])
    requires j == |s| || !IsUpper(s[j])
    ensures UpperRun(s, i) == j - i
    decreases j - i
  {
    if i < j {
      UpperRunIs(s, i + 1, j);
    }
  }

  lemma UppersAt(s: string, i: nat, j: nat)
    requires i <= j <= |s| && AllUpper(s[i..j])
    ensures forall k | i <= k < j :: IsUpper(s[k])
  {
    forall k | i <= k < j
      ensures IsUpper(s[k])
    {
      assert s[i..j][k - i] == s[k];
    }
  }
}
