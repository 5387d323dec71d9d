/** The `base26` package as its declaration describes it (types/base26.d.ts):
    bijective base 26 over the lower-case letters, where 'a' is 1, 'z' is 26
    and 'aa' is 27. */
module Base26 {
  import opened Text

  function DigitOf(c: char): (d: nat)
    requires IsLower(c)
    ensures 1 <= d <= 26
  {
    c as int - 'a' as int + 1
  }

  function LetterOf(d: nat): (c: char)
    requires 1 <= d <= 26
    ensures IsLower(c) && DigitOf(c) == d
  {
    ('a' as int + d - 1) as char
  }

  /** `base26.from(alpha)`: the number the letters stand for. */
  function From(alpha: string): nat
    requires AllLower(alpha)
    decreases |alpha|
  {
    if alpha == [] then 0 else 26 * From(alpha[..|alpha| - 1]) + DigitOf(alpha[|alpha| - 1])
  }

  /** `base26.to(decimal)`: the letters of a positive number. */
  function To(decimal: nat): (alpha: string)
    requires decimal > 0
    ensures |alpha| >= 1 && AllLower(alpha)
    decreases decimal
  {
    var q := (decimal - 1) / 26;
    var c := LetterOf((decimal - 1) % 26 + 1);
    if q == 0 then [c] else To(q) + [c]
  }

  lemma {:induction false} FromTo(n: nat)
    requires n > 0
    ensures From(To(n)) == n
    decreases n
  {
    var s := To(n);
    var q := (n - 1) / 26;
    if q > 0 {
      FromTo(q);
    }
    assert s[..|s| - 1] == (if q == 0 then [] else To(q));
  }

  lemma {:induction false} ToFrom(alpha: string)
    requires AllLower(alpha) && alpha != []
    ensures From(alpha) > 0 && To(From(alpha)) == alpha
    decreases |alpha|
  {
    var init := alpha[..|alpha| - 1];
    var d := DigitOf(alpha[|alpha| - 1]);
    var n := From(alpha);
    assert n == 26 * From(init) + d;
    assert (n - 1) / 26 == From(init) && (n - 1) % 26 + 1 == d;
    if init != [] {
      ToFrom(init);
    }
    assert alpha == init + [alpha[|alpha| - 1]];
  }

  lemma ToInjective(m: nat, n: nat)
    requires m > 0 && n > 0 && To(m) == To(n)
    ensures m == n
  {
    FromTo(m);
    FromTo(n);
  }
}
