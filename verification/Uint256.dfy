/** The 32-byte word of an event's data as exact decimal text, with the status of its 38-digit form. */
module Uint256 {
  import opened Wrappers
  import opened Arithmetic
  import opened Text

  const UINT256_WORD_HEX_LENGTH := 66
  const DECIMAL38_MAX: nat := 99999999999999999999999999999999999999

  const STATUS_DECIMAL38_AVAILABLE := "DECIMAL38_AVAILABLE"
  const STATUS_OUTSIDE_DECIMAL38_RANGE := "OUTSIDE_DECIMAL38_RANGE"
  const STATUS_NOT_UINT256_WORD := "NOT_UINT256_WORD"

  datatype Decoded = Decoded(decimalText: Option<string>, status: string)

  lemma StatusesDiffer()
    ensures STATUS_DECIMAL38_AVAILABLE != STATUS_OUTSIDE_DECIMAL38_RANGE
    ensures STATUS_DECIMAL38_AVAILABLE != STATUS_NOT_UINT256_WORD
    ensures STATUS_OUTSIDE_DECIMAL38_RANGE != STATUS_NOT_UINT256_WORD
  {
    assert |STATUS_DECIMAL38_AVAILABLE| == 19 && |STATUS_OUTSIDE_DECIMAL38_RANGE| == 23;
    assert |STATUS_NOT_UINT256_WORD| == 16;
  }

  predicate IsUint256Word(s: string) {
    IsHexText(s) && |s| == UINT256_WORD_HEX_LENGTH
  }

  /** The exact text and status of a hexadecimal data field; None is the source's ValueError. */
  function DecodeUint256(dataRaw: string): Option<Decoded> {
    if !IsHexText(dataRaw) then None
    else
      var normalized := Lower(dataRaw);
      if |normalized| != UINT256_WORD_HEX_LENGTH then Some(Decoded(None, STATUS_NOT_UINT256_WORD))
      else
        LowerKeepsHex(dataRaw);
        var value := HexValue(normalized[2..]);
        var status := if value <= DECIMAL38_MAX then STATUS_DECIMAL38_AVAILABLE else STATUS_OUTSIDE_DECIMAL38_RANGE;
        Some(Decoded(Some(ToDecimal(value)), status))
  }

  /** The data of one 32-byte word is the prefix and 64 digits. */
  lemma WordsHave64Digits(s: string)
    ensures IsUint256Word(s) <==> |s| == 66 && s == "0x" + s[2..] && AllHex(s[2..])
  {
    if IsHexText(s) {
      HexTexts(s);
    }
  }

  lemma SmallPowers()
    ensures Pow(10, 2) == 100 && Pow(10, 4) == 10000 && Pow(16, 4) == 65536
  {
    assert Pow(10, 2) == 100;
  }

  lemma Decimal38Limit()
    ensures Pow(10, 38) == DECIMAL38_MAX + 1
  {
    hide Pow;
    SmallPowers();
    PowAdd(10, 2, 4);
    PowAdd(10, 4, 4);
    PowAdd(10, 8, 8);
    PowAdd(10, 16, 16);
    PowAdd(10, 6, 32);
  }

  lemma WordsHave78Digits()
    ensures Pow(16, 64) < Pow(10, 78)
  {
    hide Pow;
    SmallPowers();
    PowAdd(16, 4, 4);
    PowAdd(16, 8, 8);
    PowAdd(16, 16, 16);
    PowAdd(16, 32, 32);
    Decimal38Limit();
    PowAdd(10, 38, 38);
    PowAdd(10, 76, 2);
  }

  /**
   The text of a word reads back as the word's value, has no superfluous zero and at most 78 digits, and the
   status says whether it has at most 38.
   */
  lemma WordTextIsExact(dataRaw: string)
    requires IsUint256Word(dataRaw)
    ensures DecodeUint256(dataRaw).Some? && DecodeUint256(dataRaw).value.decimalText.Some?
    ensures var text, status := DecodeUint256(dataRaw).value.decimalText.value, DecodeUint256(dataRaw).value.status;
      && IsCanonicalDecimal(text)
      && FromDecimal(text) == HexValue(dataRaw[2..])
      && |text| <= 78
      && (status == STATUS_DECIMAL38_AVAILABLE <==> |text| <= 38)
      && (status == STATUS_OUTSIDE_DECIMAL38_RANGE <==> |text| > 38)
  {
    hide IsCanonicalDecimal, FromDecimal, ToDecimal, HexValue, Pow;
    var value := HexValue(dataRaw[2..]);
    LowerKeepsHex(dataRaw);
    LowerIsLower(dataRaw);
    DecimalRoundTrip(value);
    HexBound(dataRaw[2..]);
    WordsHave78Digits();
    DigitCount(value, 78);
    DigitCount(value, 38);
    Decimal38Limit();
  }

  /** Data of any other shape has no text, and hexadecimal data is never refused. */
  lemma OtherDataHasNoText(dataRaw: string)
    requires !IsUint256Word(dataRaw)
    ensures DecodeUint256(dataRaw) == if IsHexText(dataRaw) then Some(Decoded(None, STATUS_NOT_UINT256_WORD)) else None
  {
    LowerIsLower(dataRaw);
  }

  /** No two lower-case words share a text. */
  lemma WordTextIsInjective(a: string, b: string)
    requires IsUint256Word(a) && IsUint256Word(b) && IsLower(a) && IsLower(b)
    requires DecodeUint256(a) == DecodeUint256(b)
    ensures a == b
  {
    hide DecodeUint256, IsCanonicalDecimal, FromDecimal, HexValue, IsHexDigit;
    WordTextIsExact(a);
    WordTextIsExact(b);
    HexInjective(a[2..], b[2..]);
    assert a == a[..2] + a[2..] && b == b[..2] + b[2..];
    assert a[..2] == "0x" == b[..2];
  }

  /** The data column is kept in lower case, and decoding does not depend on the case of the input. */
  lemma DecodeIgnoresCase(dataRaw: string)
    requires IsHexText(dataRaw)
    ensures DecodeUint256(Lower(dataRaw)) == DecodeUint256(dataRaw)
  {
    LowerIsLower(dataRaw);
    LowerKeepsHex(dataRaw);
    LowerIsLower(Lower(dataRaw));
  }
}
