/** Character classes and small scanners over strings: the pieces of the
    regular expressions `\w`, `\d+` and of `parseInt` / template-literal
    number printing that the workflow utilities rely on. */
module Text {

  /** `\d` */
  predicate IsDigit(c: char) {
    '0' <= c <= '9'
  }

  /** `\w`: ASCII letters, digits and the underscore. */
  predicate IsWordChar(c: char) {
    'a' <= c <= 'z' || 'A' <= c <= 'Z' || IsDigit(c) || c == '_'
  }

  predicate AllDigits(s: string) {
    forall i :: 0 <= i < |s| ==> IsDigit(s[i])
  }

  predicate AllWordChars(s: string) {
    forall i :: 0 <= i < |s| ==> IsWordChar(s[i])
  }

  function DigitValue(c: char): (d: nat)
    requires IsDigit(c)
    ensures d < 10
  {
    c as int - '0' as int
  }

  function DigitChar(d: nat): (c: char)
    requires d < 10
    ensures IsDigit(c) && DigitValue(c) == d
  {
    ('0' as int + d) as char
  }

  /** Decimal rendering of a natural number, as `${n}` prints it. */
  function NatToString(n: nat): (s: string)
    ensures |s| >= 1 && AllDigits(s)
  {
    if n < 10 then [DigitChar(n)] else NatToString(n / 10) + [DigitChar(n % 10)]
  }

  /** `parseInt` of a string made of decimal digits only. */
  function ParseDigits(s: string): nat
    requires AllDigits(s)
  {
    if s == [] then 0 else ParseDigits(s[..|s| - 1]) * 10 + DigitValue(s[|s| - 1])
  }

  /** Parsing what was printed gives the number back. */
  lemma {:induction false} ParsePrinted(n: nat)
    ensures ParseDigits(NatToString(n)) == n
  {
    var s := NatToString(n);
    if n >= 10 {
      ParsePrinted(n / 10);
      assert s[..|s| - 1] == NatToString(n / 10);
    }
  }

  /** Length of the longest prefix of `s` made of digits (greedy `\d+`). */
  function DigitRun(s: string): (k: nat)
    ensures k <= |s|
  {
    if s == [] || !IsDigit(s[0]) then 0
    else 1 + DigitRun(s[1..])
  }

  /** The run is made of such characters and stops before the first other one. */
  lemma {:induction false} DigitRunSpec(s: string)
    ensures AllDigits(s[..DigitRun(s)])
    ensures DigitRun(s) < |s| ==> !IsDigit(s[DigitRun(s)])
  {
    if s != [] && IsDigit(s[0]) {
      DigitRunSpec(s[1..]);
      assert s[..DigitRun(s)] == [s[0]] + s[1..][..DigitRun(s[1..])];
    }
  }

  /** Length of the longest prefix of `s` made of word characters (greedy `\w+`). */
  function WordRun(s: string): (k: nat)
    ensures k <= |s|
  {
    if s == [] || !IsWordChar(s[0]) then 0
    else 1 + WordRun(s[1..])
  }

  /** The run is made of such characters and stops before the first other one. */
  lemma {:induction false} WordRunSpec(s: string)
    ensures AllWordChars(s[..WordRun(s)])
    ensures WordRun(s) < |s| ==> !IsWordChar(s[WordRun(s)])
  {
    if s != [] && IsWordChar(s[0]) {
      WordRunSpec(s[1..]);
      assert s[..WordRun(s)] == [s[0]] + s[1..][..WordRun(s[1..])];
    }
  }

  /** The digit run of a string is exactly its leading block of digits. */
  lemma {:induction false} DigitRunOf(a: string, b: string)
    requires AllDigits(a)
    requires b == [] || !IsDigit(b[0])
    ensures DigitRun(a + b) == |a|
  {
    if a == [] {
      assert a + b == b;
    } else {
      assert (a + b)[1..] == a[1..] + b;
      DigitRunOf(a[1..], b);
    }
  }

  /** The word run of a string is exactly its leading block of word characters. */
  lemma {:induction false} WordRunOf(a: string, b: string)
    requires AllWordChars(a)
    requires b == [] || !IsWordChar(b[0])
    ensures WordRun(a + b) == |a|
  {
    if a == [] {
      assert a + b == b;
    } else {
      assert (a + b)[1..] == a[1..] + b;
      WordRunOf(a[1..], b);
    }
  }

  predicate StartsWith(s: string, prefix: string) {
    |prefix| <= |s| && s[..|prefix|] == prefix
  }

  /** `String.prototype.includes` */
  predicate Contains(s: string, part: string)
    decreases |s|
  {
    StartsWith(s, part) || (s != [] && Contains(s[1..], part))
  }

  /** Every string that contains `part + more` contains `part`. */
  lemma {:induction false} ContainsExtended(s: string, part: string, more: string)
    requires Contains(s, part + more)
    ensures Contains(s, part)
    decreases |s|
  {
    if StartsWith(s, part + more) {
      assert s[..|part|] == (part + more)[..|part|];
    } else {
      ContainsExtended(s[1..], part, more);
    }
  }
}
