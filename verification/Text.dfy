/** Hexadecimal and decimal notation on text, and what the texts stand for. */
module Text {
  import opened Arithmetic

  // --- Hexadecimal ---

  predicate IsHexDigit(c: char) {
    '0' <= c <= '9' || 'a' <= c <= 'f' || 'A' <= c <= 'F'
  }

  function HexDigit(c: char): (d: nat)
    requires IsHexDigit(c)
    ensures d < 16
  {
    if c <= '9' then (c - '0') as nat else if c <= 'F' then (c - 'A') as nat + 10 else (c - 'a') as nat + 10
  }

  predicate AllHex(s: string) {
    forall i | 0 <= i < |s| :: IsHexDigit(s[i])
  }

  function HexValue(s: string): nat
    requires AllHex(s)
  {
    if s == [] then 0 else 16 * HexValue(s[..|s| - 1]) + HexDigit(s[|s| - 1])
  }

  /** The prefix 0x, then hexadecimal digits, possibly none. */
  predicate IsHexText(s: string) {
    |s| >= 2 && s[0] == '0' && s[1] == 'x' && AllHex(s[2..])
  }

  function LowerChar(c: char): char {
    if 'A' <= c <= 'Z' then c - 'A' + 'a' else c
  }

  function Lower(s: string): string {
    seq(|s|, i requires 0 <= i < |s| => LowerChar(s[i]))
  }

  predicate IsLower(s: string) {
    forall i | 0 <= i < |s| :: !('A' <= s[i] <= 'Z')
  }

  const UPPER_LETTERS := "ABCDEFGHIJKLMNOPQRSTUVWXYZ"
  const LOWER_LETTERS := "abcdefghijklmnopqrstuvwxyz"

  /** Lower-casing replaces each capital letter by its small one and keeps every other character. */
  lemma LowerLetters(s: string, i: nat)
    requires i < |s|
    ensures |Lower(s)| == |s|
    ensures forall k | 0 <= k < 26 :: s[i] == UPPER_LETTERS[k] ==> Lower(s)[i] == LOWER_LETTERS[k]
    ensures s[i] !in UPPER_LETTERS ==> Lower(s)[i] == s[i]
    ensures IsLower(s) ==> s[i] !in UPPER_LETTERS
  {
    assert forall k | 0 <= k < 26 :: LOWER_LETTERS[k] == 'a' + k as char && UPPER_LETTERS[k] == 'A' + k as char;
    if 'A' <= s[i] <= 'Z' {
      var k := (s[i] - 'A') as nat;
      assert s[i] == UPPER_LETTERS[k];
    }
  }

  lemma LowerIsLower(s: string)
    ensures IsLower(Lower(s)) && |Lower(s)| == |s|
    ensures IsLower(s) ==> Lower(s) == s
  {
  }

  /** Lower case changes neither the shape nor the value of a hexadecimal text. */
  lemma LowerKeepsHex(s: string)
    requires IsHexText(s)
    ensures IsHexText(Lower(s)) && HexValue(Lower(s)[2..]) == HexValue(s[2..])
  {
    LowerKeepsValue(s[2..]);
    assert Lower(s)[2..] == Lower(s[2..]);
  }

  lemma {:induction false} LowerKeepsValue(s: string)
    requires AllHex(s)
    ensures AllHex(Lower(s)) && HexValue(Lower(s)) == HexValue(s)
  {
    if s == [] {
    } else {
      var front := s[..|s| - 1];
      LowerKeepsValue(front);
      assert Lower(s)[..|s| - 1] == Lower(front);
    }
  }

  /** Which characters are hexadecimal digits, and what each of them stands for, in either case. */
  lemma HexDigits(d: nat)
    requires d < 16
    ensures ToHex(d) == ["0123456789abcdef"[d]]
    ensures HexValue(["0123456789abcdef"[d]]) == d && HexValue(["0123456789ABCDEF"[d]]) == d
  {
    assert forall c: char :: [c][..0] == [];
  }

  lemma HexAlphabet(c: char)
    ensures IsHexDigit(c) <==> c in "0123456789abcdefABCDEF"
    ensures IsDigit(c) <==> c in "0123456789"
  {
  }

  /** A hexadecimal text is the prefix and then digits, of which there may be none. */
  lemma HexTexts(s: string)
    ensures IsHexText("0x" + s) <==> AllHex(s)
    ensures IsHexText(s) ==> s == "0x" + s[2..]
  {
    assert ("0x" + s)[2..] == s;
  }

  /** Digits followed by digits: the first part is worth 16^k times as much, k the length of the second. */
  lemma {:induction false} HexConcat(s: string, t: string)
    requires AllHex(s) && AllHex(t)
    ensures HexValue(s + t) == HexValue(s) * Pow(16, |t|) + HexValue(t)
  {
    if t == [] {
      assert s + t == s;
    } else {
      var front := t[..|t| - 1];
      HexConcat(s, front);
      assert (s + t)[..|s + t| - 1] == s + front;
      Rescale(16, HexValue(s), Pow(16, |front|));
    }
  }

  lemma {:induction false} HexBound(s: string)
    requires AllHex(s)
    ensures HexValue(s) < Pow(16, |s|)
  {
    if s == [] {
    } else {
      HexBound(s[..|s| - 1]);
    }
  }

  /** Lower-case digits of one length are determined by their value. */
  lemma {:induction false} HexInjective(s: string, t: string)
    requires AllHex(s) && AllHex(t) && IsLower(s) && IsLower(t)
    requires |s| == |t| && HexValue(s) == HexValue(t)
    ensures s == t
  {
    hide HexDigit, IsHexDigit;
    if s == [] {
    } else {
      var n := |s| - 1;
      SameLastDigit(HexValue(s[..n]), HexValue(t[..n]), HexDigit(s[n]), HexDigit(t[n]));
      LowerDigitInjective(s[n], t[n]);
      HexInjective(s[..n], t[..n]);
      assert s == s[..n] + [s[n]] && t == t[..n] + [t[n]];
    }
  }

  lemma LowerDigitInjective(c: char, d: char)
    requires IsHexDigit(c) && IsHexDigit(d) && !('A' <= c <= 'Z') && !('A' <= d <= 'Z')
    requires HexDigit(c) == HexDigit(d)
    ensures c == d
  {
  }

  lemma SameLastDigit(a: nat, b: nat, c: nat, d: nat)
    requires c < 16 && d < 16 && 16 * a + c == 16 * b + d
    ensures a == b && c == d
  {
  }

  function HexChar(d: nat): (c: char)
    requires d < 16
    ensures IsHexDigit(c) && HexDigit(c) == d
  {
    if d < 10 then '0' + d as char else 'a' + (d - 10) as char
  }

  function ToHex(n: nat): (s: string)
    ensures AllHex(s) && |s| > 0
  {
    if n < 16 then [HexChar(n)] else ToHex(n / 16) + [HexChar(n % 16)]
  }

  lemma {:induction false} HexRoundTrip(n: nat)
    ensures HexValue(ToHex(n)) == n
  {
    if n < 16 {
      assert ToHex(n)[..0] == [];
    } else {
      HexRoundTrip(n / 16);
      var front := ToHex(n / 16);
      assert ToHex(n)[..|front|] == front;
    }
  }

  // --- Decimal ---

  predicate IsDigit(c: char) {
    '0' <= c <= '9'
  }

  function Digit(c: char): (d: nat)
    requires IsDigit(c)
    ensures d < 10
  {
    (c - '0') as nat
  }

  function DigitChar(d: nat): (c: char)
    requires d < 10
    ensures IsDigit(c) && Digit(c) == d
  {
    '0' + d as char
  }

  predicate AllDigits(s: string) {
    forall i | 0 <= i < |s| :: IsDigit(s[i])
  }

  function FromDecimal(s: string): nat
    requires AllDigits(s)
  {
    if s == [] then 0 else 10 * FromDecimal(s[..|s| - 1]) + Digit(s[|s| - 1])
  }

  function ToDecimal(n: nat): (s: string)
    ensures AllDigits(s) && |s| > 0
  {
    if n < 10 then [DigitChar(n)] else ToDecimal(n / 10) + [DigitChar(n % 10)]
  }

  /** What each decimal digit stands for, in both directions. */
  lemma DecimalDigits(d: nat)
    requires d < 10
    ensures ToDecimal(d) == ["0123456789"[d]] && FromDecimal(["0123456789"[d]]) == d
  {
    assert forall c: char :: [c][..0] == [];
  }

  /** Decimal digits without a superfluous leading zero. */
  predicate IsCanonicalDecimal(s: string) {
    |s| > 0 && AllDigits(s) && (s == "0" || s[0] != '0')
  }

  /** The text of a number reads back as that number and has no superfluous zero. */
  lemma {:induction false} DecimalRoundTrip(n: nat)
    ensures IsCanonicalDecimal(ToDecimal(n)) && FromDecimal(ToDecimal(n)) == n
  {
    if n < 10 {
    } else {
      DecimalRoundTrip(n / 10);
      var front := ToDecimal(n / 10);
      assert ToDecimal(n)[..|front|] == front;
    }
  }

  /** A canonical text is the text of its own value: canonical texts and numbers correspond one to one. */
  lemma {:induction false} CanonicalIsText(s: string)
    requires IsCanonicalDecimal(s)
    ensures ToDecimal(FromDecimal(s)) == s
  {
    var n := |s| - 1;
    var front := s[..n];
    assert s == front + [s[n]];
    if n == 0 {
    } else {
      assert s[0] != '0';
      CanonicalIsText(front);
      CanonicalPositive(front);
    }
  }

  lemma {:induction false} CanonicalPositive(s: string)
    requires |s| > 0 && AllDigits(s) && s[0] != '0'
    ensures FromDecimal(s) > 0
  {
    if |s| == 1 {
    } else {
      CanonicalPositive(s[..|s| - 1]);
    }
  }

  /** A number has at most k digits exactly when it is below 10^k. */
  lemma {:induction false} DigitCount(n: nat, k: nat)
    requires k > 0
    ensures |ToDecimal(n)| <= k <==> n < Pow(10, k)
  {
    if k == 1 {
      assert Pow(10, 1) == 10 * Pow(10, 0);
    } else if n < 10 {
      PowPositive(10, k - 1);
    } else {
      DigitCount(n / 10, k - 1);
    }
  }

  /** Digits followed by digits: the first part is worth 10^k times as much, k the length of the second. */
  lemma {:induction false} DecimalConcat(s: string, t: string)
    requires AllDigits(s) && AllDigits(t)
    ensures FromDecimal(s + t) == FromDecimal(s) * Pow(10, |t|) + FromDecimal(t)
  {
    if t == [] {
      assert s + t == s;
    } else {
      var front := t[..|t| - 1];
      DecimalConcat(s, front);
      assert (s + t)[..|s + t| - 1] == s + front;
      Rescale(10, FromDecimal(s), Pow(10, |front|));
    }
  }

  lemma Rescale(base: nat, a: nat, p: nat)
    ensures base * (a * p) == a * (base * p)
  {
  }

  lemma {:induction false} DecimalBound(s: string)
    requires AllDigits(s)
    ensures FromDecimal(s) < Pow(10, |s|)
  {
    if s == [] {
    } else {
      DecimalBound(s[..|s| - 1]);
    }
  }
}
