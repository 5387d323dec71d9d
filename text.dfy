/** Character classes, ASCII case mapping, decimal printing and parsing, and
    JavaScript's Number() applied to a string, as the library relies on them. */
module Text {

  predicate IsDigit(c: char) { '0' <= c <= '9' }
  predicate IsLower(c: char) { 'a' <= c <= 'z' }
  predicate IsUpper(c: char) { 'A' <= c <= 'Z' }
  predicate IsLetter(c: char) { IsLower(c) || IsUpper(c) }
  /** The class `\w` of a JavaScript regular expression. */
  predicate IsWordChar(c: char) { IsLetter(c) || IsDigit(c) || c == '_' }

  predicate AllDigits(s: string) { forall i | 0 <= i < |s| :: IsDigit(s[i]) }
  predicate AllLetters(s: string) { forall i | 0 <= i < |s| :: IsLetter(s[i]) }
  predicate AllLower(s: string) { forall i | 0 <= i < |s| :: IsLower(s[i]) }
  predicate AllUpper(s: string) { forall i | 0 <= i < |s| :: IsUpper(s[i]) }

  /** String.prototype.toLowerCase / toUpperCase on one character (ASCII only). */
  function LowerChar(c: char): char { if IsUpper(c) then (c as int + 32) as char else c }
  function UpperChar(c: char): char { if IsLower(c) then (c as int - 32) as char else c }

  function ToLower(s: string): (r: string)
    ensures |r| == |s| && forall i | 0 <= i < |s| :: r[i] == LowerChar(s[i])
  {
    seq(|s|, i requires 0 <= i < |s| => LowerChar(s[i]))
  }

  function ToUpper(s: string): (r: string)
    ensures |r| == |s| && forall i | 0 <= i < |s| :: r[i] == UpperChar(s[i])
  {
    seq(|s|, i requires 0 <= i < |s| => UpperChar(s[i]))
  }

  /** Lower-casing an upper-cased string of lower-case letters gives it back. */
  lemma LowerOfUpper(s: string)
    requires AllLower(s)
    ensures AllUpper(ToUpper(s)) && ToLower(ToUpper(s)) == s
  {
  }

  /** `s.replace(/^c/, '')`: drops one leading `c`. */
  function StripLeading(s: string, c: char): string
  {
    if |s| > 0 && s[0] == c then s[1..] else s
  }

  /** `s.replace(/c$/, '')`: drops one trailing `c`. */
  function StripTrailing(s: string, c: char): string
  {
    if |s| > 0 && s[|s| - 1] == c then s[..|s| - 1] else s
  }

  predicate StartsWith(s: string, prefix: string)
  {
    |prefix| <= |s| && s[..|prefix|] == prefix
  }

  function DigitChar(d: nat): (c: char)
    requires d < 10
    ensures IsDigit(c)
  {
    ('0' as int + d) as char
  }

  function DigitValue(c: char): (d: nat)
    requires IsDigit(c)
    ensures d < 10
  {
    c as int - '0' as int
  }

  /** The decimal text of a natural number, as JavaScript prints it. */
  function NatToDecimal(n: nat): (s: string)
    ensures |s| >= 1 && AllDigits(s)
    decreases n
  {
    if n < 10 then [DigitChar(n)] else NatToDecimal(n / 10) + [DigitChar(n % 10)]
  }

  /** The value of a string of decimal digits; the empty string has value 0. */
  function DecimalValue(s: string): nat
    requires AllDigits(s)
    decreases |s|
  {
    if s == [] then 0 else 10 * DecimalValue(s[..|s| - 1]) + DigitValue(s[|s| - 1])
  }

  lemma {:induction false} DecimalRoundTrip(n: nat)
    ensures DecimalValue(NatToDecimal(n)) == n
    decreases n
  {
    if n >= 10 {
      DecimalRoundTrip(n / 10);
      var s := NatToDecimal(n);
      assert s[..|s| - 1] == NatToDecimal(n / 10);
    }
  }

  /** Printing is injective, because parsing undoes it. */
  lemma DecimalInjective(m: nat, n: nat)
    requires NatToDecimal(m) == NatToDecimal(n)
    ensures m == n
  {
    DecimalRoundTrip(m);
    DecimalRoundTrip(n);
  }

  /** `'' + i` for an integer `i`. */
  function IntToDecimal(i: int): string
  {
    if i < 0 then "-" + NatToDecimal(-i) else NatToDecimal(i)
  }

  /** The value of `Number(s)`: NaN, or an integer (fractions are not modelled). */
  datatype JsNumber = NaN | Finite(value: int)

  /** `Number(s)` for a string `s`, on the strings this model reads: the empty
      string is 0, an optionally signed run of decimal digits is its value.
      Everything else is NaN here; JavaScript also trims white space and reads
      fractions, exponents, `0x`/`0o`/`0b` prefixes and `Infinity`. */
  function NumberOf(s: string): JsNumber
  {
    if s == "" then Finite(0)
    else if AllDigits(s) then Finite(DecimalValue(s))
    else if |s| >= 2 && s[0] == '-' && AllDigits(s[1..]) then Finite(0 - DecimalValue(s[1..]))
    else if |s| >= 2 && s[0] == '+' && AllDigits(s[1..]) then Finite(DecimalValue(s[1..]))
    else NaN
  }

  lemma NumberOfDecimal(n: nat)
    ensures NumberOf(NatToDecimal(n)) == Finite(n)
  {
    DecimalRoundTrip(n);
  }

  /** A visible ASCII character that no numeric literal JavaScript's `Number`
      reads can hold: not a digit, a sign, the decimal point, an exponent,
      hexadecimal digit or radix letter, nor a letter of `Infinity`. */
  predicate NeverInNumber(c: char)
  {
    '!' <= c <= '~' && !IsDigit(c) && c !in "+-.abcdefinotxyABCDEFIOX"
  }

  /** A string with a character that no number uses is NaN. */
  lemma NumberOfNonNumeric(s: string, i: nat)
    requires i < |s| && NeverInNumber(s[i])
    ensures NumberOf(s) == NaN
  {
    if i > 0 {
      assert s[1..][i - 1] == s[i];
    }
  }

  // ---------------------------------------------------------------------
  // Sequences
  // ---------------------------------------------------------------------

  lemma AppendAssociates<T>(a: seq<T>, b: seq<T>, c: seq<T>)
    ensures a + (b + c) == (a + b) + c
  {
  }

  /** The last element of `xs + ys`, and what comes before it. */
  lemma DropLastOfJoin<T>(xs: seq<T>, ys: seq<T>)
    requires ys != []
    ensures (xs + ys)[..|xs + ys| - 1] == xs + ys[..|ys| - 1]
    ensures (xs + ys)[|xs + ys| - 1] == ys[|ys| - 1]
  {
  }

  lemma PrefixSplit<T>(entries: seq<T>, i: nat)
    requires i <= |entries|
    ensures entries[..i] + entries[i..] == entries
    ensures i == |entries| ==> entries[..i] == entries
  {
  }
}
