/** A token amount as fixed-point text: the decimal point moved into the digits, and how SQL reads it back. */
module FixedPoint {
  import opened Wrappers
  import opened Arithmetic
  import opened Text

  /** A fixed-point number: an unscaled integer and the number of digits after the point. */
  datatype Fixed = Fixed(unscaled: nat, scale: nat) {
    function Value(): real {
      PowPositive(10, scale);
      unscaled as real / Pow(10, scale) as real
    }
  }

  function Zeros(n: nat): (s: string)
    ensures |s| == n && AllDigits(s)
  {
    seq(n, i => '0')
  }

  /** SQL lpad with zeros, of a text that is not longer than asked for. */
  function LeftPad(s: string, n: nat): string
    requires |s| <= n
  {
    Zeros(n - |s|) + s
  }

  /** The digits of a base-unit amount with the point moved `decimals` places to the left. */
  function AmountText(digits: string, decimals: nat): string {
    if |digits| <= decimals then "0." + LeftPad(digits, decimals)
    else digits[..|digits| - decimals] + "." + digits[|digits| - decimals..]
  }

  function PointAt(s: string): (i: nat)
    ensures i <= |s| && (i < |s| ==> s[i] == '.')
    ensures forall j | 0 <= j < i :: s[j] != '.'
  {
    if s == [] then 0 else if s[0] == '.' then 0 else 1 + PointAt(s[1..])
  }

  /** Digits with at most one point among them, and at least one digit. */
  function ReadFixed(s: string): Option<Fixed> {
    var i := PointAt(s);
    var whole, fraction := s[..i], if i < |s| then s[i + 1..] else "";
    if |whole + fraction| > 0 && AllDigits(whole + fraction)
    then Some(Fixed(FromDecimal(whole + fraction), |fraction|))
    else None
  }

  /** try_cast to DECIMAL(38, scale), as an unscaled integer; null when the value does not fit. */
  function TryCast(s: string, scale: nat): Option<nat> {
    var read := ReadFixed(s);
    if read.None? || read.value.scale > scale then None
    else
      var unscaled := read.value.unscaled * Pow(10, scale - read.value.scale);
      if unscaled < Pow(10, 38) then Some(unscaled) else None
  }

  lemma PointAfterDigits(whole: string, fraction: string)
    requires AllDigits(whole)
    ensures PointAt(whole + "." + fraction) == |whole|
  {
    var s := whole + "." + fraction;
    assert s[|whole|] == '.';
    assert forall j | 0 <= j < |whole| :: s[j] == whole[j];
  }

  lemma ReadSplit(whole: string, fraction: string)
    requires AllDigits(whole) && AllDigits(fraction) && |whole + fraction| > 0
    ensures ReadFixed(whole + "." + fraction) == Some(Fixed(FromDecimal(whole + fraction), |fraction|))
  {
    var s := whole + "." + fraction;
    PointAfterDigits(whole, fraction);
    assert s[..|whole|] == whole && s[|whole| + 1..] == fraction;
  }

  lemma ZerosAreNothing(n: nat, s: string)
    requires AllDigits(s)
    ensures AllDigits(Zeros(n) + s) && FromDecimal(Zeros(n) + s) == FromDecimal(s)
  {
    DecimalConcat(Zeros(n), s);
    ZerosAreZero(n);
  }

  lemma {:induction false} ZerosAreZero(n: nat)
    ensures FromDecimal(Zeros(n)) == 0
  {
    if n == 0 {
    } else {
      assert Zeros(n)[..n - 1] == Zeros(n - 1);
      ZerosAreZero(n - 1);
    }
  }

  /** Whatever the number of decimals, the text reads back as the amount scaled by exactly that many places. */
  lemma AmountTextIsLossless(digits: string, decimals: nat)
    requires AllDigits(digits) && |digits| > 0
    ensures ReadFixed(AmountText(digits, decimals)) == Some(Fixed(FromDecimal(digits), decimals))
  {
    hide ReadFixed, FromDecimal;
    if |digits| <= decimals {
      SmallAmountText(digits, decimals);
    } else {
      var whole, fraction := digits[..|digits| - decimals], digits[|digits| - decimals..];
      assert whole + fraction == digits;
      ReadSplit(whole, fraction);
    }
  }

  lemma SmallAmountText(digits: string, decimals: nat)
    requires AllDigits(digits) && 0 < |digits| <= decimals
    ensures ReadFixed("0." + LeftPad(digits, decimals)) == Some(Fixed(FromDecimal(digits), decimals))
  {
    hide ReadFixed, FromDecimal, Zeros, AllDigits;
    OneMoreZero(decimals - |digits|, digits);
    ZerosAreNothing(decimals - |digits|, digits);
    ZerosAreNothing(decimals - |digits| + 1, digits);
    ZeroPoint(LeftPad(digits, decimals));
    ReadSplit("0", LeftPad(digits, decimals));
  }

  lemma ZeroPoint(s: string)
    ensures "0." + s == "0" + "." + s && AllDigits("0")
  {
  }

  lemma OneMoreZero(n: nat, s: string)
    ensures "0" + (Zeros(n) + s) == Zeros(n + 1) + s
  {
  }

  /**
   The text is the amount divided by 10^decimals, digit for digit: the quotient without a superfluous zero, a point,
   and exactly `decimals` digits for the remainder.
   */
  ghost predicate IsAmountText(text: string, amount: nat, decimals: nat) {
    PowPositive(10, decimals);
    var whole := ToDecimal(amount / Pow(10, decimals));
    && |text| == |whole| + 1 + decimals
    && text[..|whole|] == whole && text[|whole|] == '.'
    && AllDigits(text[|whole| + 1..]) && FromDecimal(text[|whole| + 1..]) == amount % Pow(10, decimals)
  }

  lemma AmountTextIsDivision(amount: nat, decimals: nat)
    ensures IsAmountText(AmountText(ToDecimal(amount), decimals), amount, decimals)
  {
    hide FromDecimal, ToDecimal, Pow, IsAmountText, IsCanonicalDecimal, LeftPad;
    var digits := ToDecimal(amount);
    DecimalRoundTrip(amount);
    if |digits| <= decimals {
      DigitCount(amount, decimals);
      SmallAmountParts(digits, amount, decimals);
    } else {
      LargeAmountParts(digits, amount, decimals);
    }
  }

  lemma SmallAmountParts(digits: string, amount: nat, decimals: nat)
    requires AllDigits(digits) && |digits| <= decimals && FromDecimal(digits) == amount < Pow(10, decimals)
    ensures IsAmountText("0." + LeftPad(digits, decimals), amount, decimals)
  {
    hide FromDecimal, ToDecimal, Pow, IsAmountText, LeftPad, AllDigits;
    DecimalDigits(0);
    PaddedDigits(digits, decimals);
    Quotient(0, amount, Pow(10, decimals));
    ZeroPoint(LeftPad(digits, decimals));
    AmountTextParts("0", LeftPad(digits, decimals), amount, decimals);
  }

  lemma LargeAmountParts(digits: string, amount: nat, decimals: nat)
    requires IsCanonicalDecimal(digits) && |digits| > decimals && FromDecimal(digits) == amount
    ensures IsAmountText(digits[..|digits| - decimals] + "." + digits[|digits| - decimals..], amount, decimals)
  {
    hide FromDecimal, ToDecimal, Pow, IsAmountText, IsCanonicalDecimal;
    var whole, fraction := digits[..|digits| - decimals], digits[|digits| - decimals..];
    assert digits == whole + fraction;
    CanonicalFront(digits, |whole|);
    DecimalConcat(whole, fraction);
    DecimalBound(fraction);
    Quotient(FromDecimal(whole), FromDecimal(fraction), Pow(10, decimals));
    CanonicalIsText(whole);
    AmountTextParts(whole, fraction, amount, decimals);
  }

  lemma CanonicalFront(s: string, n: nat)
    requires IsCanonicalDecimal(s) && 0 < n <= |s|
    ensures IsCanonicalDecimal(s[..n]) && AllDigits(s[..n]) && AllDigits(s[n..])
  {
    if n == |s| {
      assert s[..n] == s;
    }
  }

  lemma PaddedDigits(digits: string, n: nat)
    requires AllDigits(digits) && |digits| <= n
    ensures AllDigits(LeftPad(digits, n)) && |LeftPad(digits, n)| == n
    ensures FromDecimal(LeftPad(digits, n)) == FromDecimal(digits)
  {
    ZerosAreNothing(n - |digits|, digits);
  }

  lemma Quotient(q: nat, r: nat, p: nat)
    requires r < p
    ensures (q * p + r) / p == q && (q * p + r) % p == r
  {
    var n := q * p + r;
    SameQuotient(n / p, n % p, q, r, p);
  }

  lemma {:induction false} SameQuotient(a: nat, r: nat, b: nat, t: nat, p: nat)
    requires r < p && t < p && a * p + r == b * p + t
    ensures a == b && r == t
  {
    if a == 0 || b == 0 {
      Multiple(a, p);
      Multiple(b, p);
    } else {
      SameQuotient(a - 1, r, b - 1, t, p);
    }
  }

  lemma Multiple(a: nat, p: nat)
    ensures if a == 0 then a * p == 0 else a * p >= p
  {
  }

  lemma AmountTextParts(whole: string, fraction: string, amount: nat, decimals: nat)
    requires AllDigits(fraction) && |fraction| == decimals && Pow(10, decimals) > 0
    requires whole == ToDecimal(amount / Pow(10, decimals)) && FromDecimal(fraction) == amount % Pow(10, decimals)
    ensures IsAmountText(whole + "." + fraction, amount, decimals)
  {
    var text := whole + "." + fraction;
    assert text[..|whole|] == whole && text[|whole| + 1..] == fraction;
  }

  /** As a real number the text is the amount divided by ten to the number of decimals. */
  lemma AmountTextValue(amount: nat, decimals: nat)
    ensures ReadFixed(AmountText(ToDecimal(amount), decimals)).Some?
    ensures Pow(10, decimals) > 0
    ensures ReadFixed(AmountText(ToDecimal(amount), decimals)).value.Value()
         == amount as real / Pow(10, decimals) as real
  {
    DecimalRoundTrip(amount);
    AmountTextIsLossless(ToDecimal(amount), decimals);
    PowPositive(10, decimals);
  }

  /** Both casts succeed exactly for amounts of at most 38 digits, and both give the amount itself. */
  lemma CastsAreExact(digits: string, decimals: nat)
    requires IsCanonicalDecimal(digits)
    ensures TryCast(digits, 0) == TryCast(AmountText(digits, decimals), decimals)
         == if |digits| <= 38 then Some(FromDecimal(digits)) else None
  {
    hide ReadFixed, FromDecimal, ToDecimal, AmountText;
    AmountTextIsLossless(digits, decimals);
    CanonicalIsText(digits);
    DigitCount(FromDecimal(digits), 38);
    NoPoint(digits);
    assert Pow(10, 0) == 1;
  }

  lemma NoPoint(digits: string)
    requires AllDigits(digits) && |digits| > 0
    ensures ReadFixed(digits) == Some(Fixed(FromDecimal(digits), 0))
  {
    assert PointAt(digits) == |digits|;
    assert digits[..|digits|] + "" == digits;
  }
}

/** The silver model: the ERC-20 transfers among the raw logs. */
module Silver {
  import opened Wrappers
  import opened Arithmetic
  import opened Text
  import opened Uint256
  import opened LogNormalizer
  import opened Incremental
  import opened FixedPoint
  import D = DeltaWriter

  const TRANSFER_TOPIC0 := "0xddf252ad1be2c89b" + "69c2b068fc378daa" + "952ba7f163c4a116" + "28f55a4df523b3ef"

  /** The configured token, its decimals, and the treasury address. */
  datatype Config = Config(usdtContract: string, treasury: string, usdtDecimals: nat)

  /** The columns of a transfer besides its natural key and load time. */
  datatype Transfer = Transfer(
    blockNumber: nat,
    blockTimestamp: int,
    blockDate: int,
    intervalStart: int,
    intervalEnd: int,
    contractAddress: string,
    fromAddress: string,
    toAddress: string,
    dataRaw: string,
    rawAmountText: Option<string>,
    rawAmount: Option<nat>,
    amountStatus: string,
    usdtAmountText: Option<string>,
    amountUsdt: Option<nat>)

  type TransferRow = Row<LogKey, Transfer>

  predicate InWindow(timestamp: int, w: Window) {
    w.start <= timestamp < w.end
  }

  /** The last 20 bytes of a 32-byte topic, or null when the topic is null or malformed. */
  function DecodeAddress(topic: Option<string>): Option<string> {
    if topic.None? || !IsUint256Word(Lower(topic.value)) then None
    else Some(Lower("0x" + topic.value[|topic.value| - 40..]))
  }

  /** An address is 20 bytes in lower case: the last 40 digits of the topic. */
  lemma AddressShape(topic: Option<string>)
    requires DecodeAddress(topic).Some?
    ensures var address := DecodeAddress(topic).value;
      && IsHexText(address) && IsLower(address) && |address| == 42
      && address[2..] == Lower(topic.value)[26..]
  {
    var word, address := Lower(topic.value), DecodeAddress(topic).value;
    forall i | 2 <= i < 42 ensures address[i] == word[i + 24] && IsHexDigit(address[i]) {
      assert word[2..][i + 22] == word[i + 24];
    }
    assert address[2..] == word[26..];
  }

  /** A live log with the shape of an ERC-20 Transfer event. */
  predicate IsErc20Shape(f: LogFact) {
    && f.topic0 == Some(TRANSFER_TOPIC0)
    && f.topic1.Some? && f.topic2.Some? && f.topic3.None?
    && f.decodeStatus in {STATUS_DECIMAL38_AVAILABLE, STATUS_OUTSIDE_DECIMAL38_RANGE}
    && f.removed != Some(true)
  }

  /** The transfer a log stands for, if it stands for one. */
  function DecodeTransfer(cfg: Config, f: LogFact): Option<Transfer> {
    var from, to := DecodeAddress(f.topic1), DecodeAddress(f.topic2);
    if !IsErc20Shape(f) || from.None? || to.None? then None
    else
      var rawAmount :=
        if f.decodeStatus == STATUS_DECIMAL38_AVAILABLE && f.decimalText.Some? then TryCast(f.decimalText.value, 0)
        else None;
      var usdtText :=
        if f.contractAddress == Lower(cfg.usdtContract) && f.decodeStatus == STATUS_DECIMAL38_AVAILABLE
           && f.decimalText.Some?
        then Some(AmountText(f.decimalText.value, cfg.usdtDecimals))
        else None;
      var amountUsdt := if usdtText.Some? then TryCast(usdtText.value, cfg.usdtDecimals) else None;
      Some(Transfer(f.blockNumber, f.blockTimestamp, f.blockDate, f.intervalStart, f.intervalEnd,
                    f.contractAddress, from.value, to.value, f.dataRaw, f.decimalText, rawAmount, f.decodeStatus,
                    usdtText, amountUsdt))
  }

  /** The transfers among the raw rows whose block time lies in the window. */
  function TransferRows(cfg: Config, raw: seq<LogRow>, w: Window): seq<TransferRow> {
    if raw == [] then []
    else
      var front := TransferRows(cfg, raw[..|raw| - 1], w);
      var row := raw[|raw| - 1];
      var t := DecodeTransfer(cfg, row.fact);
      if t.Some? && InWindow(row.fact.blockTimestamp, w)
      then front + [Row(row.fact.Key(), t.value, row.ingestedAt)]
      else front
  }

  /** The query of the model: the window's transfers, one row per log. */
  function SilverQuery(cfg: Config, raw: seq<LogRow>, w: Window): seq<TransferRow> {
    LatestPerKey(TransferRows(cfg, raw, w))
  }

  // --- Which logs are transfers, and their columns ---

  /** The transfers are the live Transfer events with two indexed addresses and an amount of 32 bytes. */
  lemma TransfersAreErc20(cfg: Config, f: LogFact)
    requires D.MatchesItsData(f)
    ensures DecodeTransfer(cfg, f).Some? <==>
      && f.topic0 == Some(TRANSFER_TOPIC0) && f.topic3.None? && f.removed != Some(true)
      && f.topic1.Some? && IsUint256Word(Lower(f.topic1.value))
      && f.topic2.Some? && IsUint256Word(Lower(f.topic2.value))
      && IsUint256Word(f.dataRaw)
  {
    hide TryCast, AmountText, IsUint256Word, Lower, DecodeUint256;
    StatusesDiffer();
    if IsUint256Word(f.dataRaw) {
      WordTextIsExact(f.dataRaw);
    } else {
      OtherDataHasNoText(f.dataRaw);
    }
  }

  /** Every column that a transfer takes over from its log; the other two amounts are the subject of what follows. */
  lemma TransferColumns(cfg: Config, f: LogFact)
    requires DecodeTransfer(cfg, f).Some?
    ensures var t := DecodeTransfer(cfg, f).value;
      && t.blockNumber == f.blockNumber && t.blockTimestamp == f.blockTimestamp && t.blockDate == f.blockDate
      && t.intervalStart == f.intervalStart && t.intervalEnd == f.intervalEnd
      && t.contractAddress == f.contractAddress && t.dataRaw == f.dataRaw
      && t.rawAmountText == f.decimalText && t.amountStatus == f.decodeStatus
      && t.amountStatus in {STATUS_DECIMAL38_AVAILABLE, STATUS_OUTSIDE_DECIMAL38_RANGE}
      && DecodeAddress(f.topic1) == Some(t.fromAddress) && DecodeAddress(f.topic2) == Some(t.toAddress)
      && (t.usdtAmountText.Some? <==>
            && t.contractAddress == Lower(cfg.usdtContract) && t.amountStatus == STATUS_DECIMAL38_AVAILABLE
            && t.rawAmountText.Some?)
  {
    hide DecodeAddress, TryCast, AmountText, IsUint256Word, Lower;
  }

  // --- Amounts ---

  /**
   For a row that matches its data, a transfer has a numeric amount exactly when its text has at most 38 digits;
   the amount is the value of the data word, and the USDT amount is the same number of base units.
   */
  lemma AmountsAreExact(cfg: Config, f: LogFact)
    requires D.MatchesItsData(f) && DecodeTransfer(cfg, f).Some?
    ensures IsUint256Word(f.dataRaw)
    ensures var t, value := DecodeTransfer(cfg, f).value, HexValue(f.dataRaw[2..]);
      && (t.amountStatus == STATUS_DECIMAL38_AVAILABLE ==> t.rawAmount == Some(value))
      && (t.amountStatus != STATUS_DECIMAL38_AVAILABLE ==> t.rawAmount == None && value > DECIMAL38_MAX)
      && (t.amountUsdt == if t.contractAddress == Lower(cfg.usdtContract) then t.rawAmount else None)
  {
    hide TryCast, AmountText, HexValue, FromDecimal, ToDecimal, IsCanonicalDecimal, DecodeAddress, IsHexText, Pow;
    if !IsUint256Word(f.dataRaw) {
      OtherDataHasNoText(f.dataRaw);
    }
    WordTextIsExact(f.dataRaw);
    CastsAreExact(f.decimalText.value, cfg.usdtDecimals);
    LowerKeepsHex(f.dataRaw);
  }

  /**
   A transfer of the token with at most 38 digits, and no other, has a fixed-point text: the value of its data word
   with the point moved by the token's decimals.
   */
  lemma UsdtTextIsTheAmount(cfg: Config, f: LogFact)
    requires D.MatchesItsData(f) && DecodeTransfer(cfg, f).Some?
    ensures IsUint256Word(f.dataRaw)
    ensures var t, value := DecodeTransfer(cfg, f).value, HexValue(f.dataRaw[2..]);
      && (t.usdtAmountText.Some? <==> f.contractAddress == Lower(cfg.usdtContract) && value < Pow(10, 38))
      && (t.usdtAmountText.Some? ==>
            && ReadFixed(t.usdtAmountText.value) == Some(Fixed(value, cfg.usdtDecimals))
            && IsAmountText(t.usdtAmountText.value, value, cfg.usdtDecimals))
  {
    hide TryCast, AmountText, HexValue, FromDecimal, ToDecimal, IsCanonicalDecimal, DecodeAddress, IsHexText, Pow,
         DecodeUint256, IsAmountText, ReadFixed, Lower;
    TransfersAreErc20(cfg, f);
    WordsHave64Digits(f.dataRaw);
    var value := HexValue(f.dataRaw[2..]);
    WordTextIsExact(f.dataRaw);
    CanonicalIsText(f.decimalText.value);
    AmountTextIsLossless(f.decimalText.value, cfg.usdtDecimals);
    AmountTextIsDivision(value, cfg.usdtDecimals);
    StatusesDiffer();
    Canonical(f.decimalText.value);
    DigitCount(value, 38);
  }

  lemma Canonical(s: string)
    ensures IsCanonicalDecimal(s) ==> AllDigits(s) && |s| > 0
  {
  }

  // --- The rows of the query, load times included ---

  /** The row is the transfer that a raw row of the window stands for, loaded when that row was ingested. */
  ghost predicate ComesFrom(cfg: Config, row: LogRow, w: Window, r: TransferRow) {
    && InWindow(row.fact.blockTimestamp, w) && DecodeTransfer(cfg, row.fact) == Some(r.columns)
    && r.key == row.fact.Key() && r.loadedAt == row.ingestedAt
  }

  lemma TransferRowsStep(cfg: Config, raw: seq<LogRow>, w: Window, r: TransferRow)
    requires raw != []
    ensures r in TransferRows(cfg, raw, w) <==>
      r in TransferRows(cfg, raw[..|raw| - 1], w) || ComesFrom(cfg, raw[|raw| - 1], w, r)
  {
    hide DecodeTransfer;
  }

  lemma {:induction false} TransferRowsMember(cfg: Config, raw: seq<LogRow>, w: Window, r: TransferRow)
    ensures r in TransferRows(cfg, raw, w) <==> exists row :: row in raw && ComesFrom(cfg, row, w, r)
  {
    hide ComesFrom;
    if raw == [] {
    } else {
      var front, last := raw[..|raw| - 1], raw[|raw| - 1];
      assert raw == front + [last];
      TransferRowsMember(cfg, front, w, r);
      TransferRowsStep(cfg, raw, w, r);
      assert forall row :: row in raw <==> row in front || row == last;
    }
  }

  /**
   Whatever the raw rows are: each row of the query comes from a raw row, each raw row of the window that stands for a
   transfer has a row of its key in the query, and that one was not ingested before it.
   */
  lemma SilverQueryRows(cfg: Config, raw: seq<LogRow>, w: Window)
    ensures forall r | r in SilverQuery(cfg, raw, w) :: exists row :: row in raw && ComesFrom(cfg, row, w, r)
    ensures forall row, r | row in raw && ComesFrom(cfg, row, w, r) :: Outlived(SilverQuery(cfg, raw, w), r)
    ensures Incremental.UniqueKeys(SilverQuery(cfg, raw, w))
  {
    hide ComesFrom, Outlived, TransferRows, LatestPerKey, Incremental.UniqueKeys;
    LatestPerKeyMeans(TransferRows(cfg, raw, w));
    forall r ensures r in TransferRows(cfg, raw, w) <==> exists row :: row in raw && ComesFrom(cfg, row, w, r) {
      TransferRowsMember(cfg, raw, w, r);
    }
  }

  // --- The query as an operation on sets of facts ---

  /** The transfers of a set of log facts in a window. */
  ghost function Transfers(cfg: Config, facts: set<LogFact>, w: Window): set<(LogKey, Transfer)> {
    set f | f in facts && InWindow(f.blockTimestamp, w) && DecodeTransfer(cfg, f).Some? ::
      (f.Key(), DecodeTransfer(cfg, f).value)
  }

  lemma {:induction false} TransferRowsContents(cfg: Config, raw: seq<LogRow>, w: Window)
    ensures Contents(TransferRows(cfg, raw, w)) == Transfers(cfg, D.Facts(raw), w)
  {
    hide DecodeTransfer, Contents, D.Facts;
    if raw == [] {
      RowsNone<LogKey, Transfer>();
      D.NoKeys();
    } else {
      var front, row := raw[..|raw| - 1], raw[|raw| - 1];
      assert raw == front + [row];
      TransferRowsContents(cfg, front, w);
      D.KeysAppend(front, [row]);
      D.KeysOne(row);
      var t := DecodeTransfer(cfg, row.fact);
      if t.Some? && InWindow(row.fact.blockTimestamp, w) {
        var added := Row(row.fact.Key(), t.value, row.ingestedAt);
        RowsAppend(TransferRows(cfg, front, w), [added]);
        RowsOne(added);
      }
    }
  }

  lemma TransfersAreFunctional(cfg: Config, facts: set<LogFact>, w: Window)
    requires D.KeyFunctional(facts)
    ensures Functional(Transfers(cfg, facts, w))
  {
    hide DecodeTransfer;
  }

  /** On a raw table without contradictions the query yields exactly the window's transfers, each once. */
  lemma SilverQueryMeans(cfg: Config, raw: seq<LogRow>, w: Window)
    requires D.KeyFunctional(D.Facts(raw))
    ensures Contents(SilverQuery(cfg, raw, w)) == Transfers(cfg, D.Facts(raw), w)
    ensures Incremental.UniqueKeys(SilverQuery(cfg, raw, w))
  {
    hide DecodeTransfer, Contents, Transfers, Functional, D.KeyFunctional, LatestPerKey;
    TransferRowsContents(cfg, raw, w);
    TransfersAreFunctional(cfg, D.Facts(raw), w);
    LatestPerKeyContents(TransferRows(cfg, raw, w));
    LatestPerKeyMeans(TransferRows(cfg, raw, w));
  }
}
