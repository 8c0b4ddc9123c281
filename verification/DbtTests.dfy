/**
 The data tests that the dbt build runs over the three tables. A test passes when its query finds no row. The
 tests of a table run when the table has been built, and a failing one keeps the tables that depend on it from
 being built.
 */
module DbtTests {
  import opened Wrappers
  import opened Arithmetic
  import opened Text
  import opened Uint256
  import opened LogNormalizer
  import opened FixedPoint
  import opened Incremental
  import opened Silver
  import opened Gold
  import D = DeltaWriter

  // --- The rows that the tests look for ---

  /** A raw row whose status and decimal text do not fit together. */
  predicate BreaksUint256Contract(f: LogFact) {
    || f.decodeStatus !in {STATUS_DECIMAL38_AVAILABLE, STATUS_OUTSIDE_DECIMAL38_RANGE, STATUS_NOT_UINT256_WORD}
    || (f.decodeStatus == STATUS_NOT_UINT256_WORD && f.decimalText.Some?)
    || (f.decodeStatus in {STATUS_DECIMAL38_AVAILABLE, STATUS_OUTSIDE_DECIMAL38_RANGE}
        && (f.decimalText.None? || !IsCanonicalDecimal(f.decimalText.value)))
    || (f.decodeStatus == STATUS_DECIMAL38_AVAILABLE && f.decimalText.Some? && |f.decimalText.value| > 38)
    || (f.decodeStatus == STATUS_OUTSIDE_DECIMAL38_RANGE && f.decimalText.Some? && |f.decimalText.value| <= 38)
  }

  /** A transfer whose numeric amount does not fit its status. */
  predicate BreaksNumericStatus(t: Transfer) {
    || (t.amountStatus == STATUS_DECIMAL38_AVAILABLE
        && (t.rawAmount.None? || (t.rawAmountText.Some? && |t.rawAmountText.value| > 38)))
    || (t.amountStatus == STATUS_OUTSIDE_DECIMAL38_RANGE
        && (t.rawAmount.Some? || (t.rawAmountText.Some? && |t.rawAmountText.value| <= 38)))
  }

  predicate IsLowerHex(s: string, digits: nat) {
    IsHexText(s) && IsLower(s) && |s| == digits + 2
  }

  /** A transfer without the shape of an ERC-20 transfer. */
  predicate BreaksTransferShape(t: Transfer) {
    || !IsLowerHex(t.fromAddress, 40) || !IsLowerHex(t.toAddress, 40) || !IsLowerHex(t.dataRaw, 64)
    || t.rawAmountText.None? || !IsCanonicalDecimal(t.rawAmountText.value)
    || t.amountStatus !in {STATUS_DECIMAL38_AVAILABLE, STATUS_OUTSIDE_DECIMAL38_RANGE}
  }

  /** A transfer of another token that has an amount of the configured one. */
  predicate HasForeignAmount(cfg: Config, t: Transfer) {
    t.contractAddress != Lower(cfg.usdtContract) && (t.usdtAmountText.Some? || t.amountUsdt.Some?)
  }

  /** A transfer of the configured token without a numeric amount. */
  predicate LacksAmount(cfg: Config, t: Transfer) {
    && t.contractAddress == Lower(cfg.usdtContract)
    && (t.rawAmountText.None? || t.amountStatus != STATUS_DECIMAL38_AVAILABLE || t.rawAmount.None?
        || t.usdtAmountText.None? || t.amountUsdt.None?)
  }

  /** A flow of another chain, token or treasury, or one without transfers. */
  predicate BreaksFlow(cfg: Config, r: FlowRow) {
    || r.key.chainId != 1 || r.key.contractAddress != Lower(cfg.usdtContract)
    || r.key.treasury != Lower(cfg.treasury) || r.columns.transferCount <= 0
  }

  // --- The tests of each table ---

  predicate RawTestsPass(raw: seq<LogRow>) {
    && (forall r | r in raw :: !BreaksUint256Contract(r.fact))
    && D.UniqueKeys(raw)
  }

  predicate SilverTestsPass(cfg: Config, silver: seq<TransferRow>) {
    && (forall r | r in silver :: !BreaksNumericStatus(r.columns) && !BreaksTransferShape(r.columns))
    && (forall r | r in silver :: !HasForeignAmount(cfg, r.columns) && !LacksAmount(cfg, r.columns))
  }

  predicate GoldTestsPass(cfg: Config, gold: seq<FlowRow>) {
    Incremental.UniqueKeys(gold) && forall r | r in gold :: !BreaksFlow(cfg, r)
  }

  // --- What the tests accept ---

  /** The amount text is that of a number, and the status says whether it is below 10^38. */
  ghost predicate TellsAmount(text: Option<string>, status: string) {
    exists n: nat ::
      && text == Some(ToDecimal(n))
      && status == if n < Pow(10, 38) then STATUS_DECIMAL38_AVAILABLE else STATUS_OUTSIDE_DECIMAL38_RANGE
  }

  lemma TellsWhen(text: Option<string>, status: string)
    ensures TellsAmount(text, status) <==>
      && text.Some? && IsCanonicalDecimal(text.value)
      && ((status == STATUS_DECIMAL38_AVAILABLE && |text.value| <= 38)
          || (status == STATUS_OUTSIDE_DECIMAL38_RANGE && |text.value| > 38))
  {
    hide ToDecimal, IsCanonicalDecimal, FromDecimal, Pow;
    if TellsAmount(text, status) {
      var n: nat :| text == Some(ToDecimal(n))
        && status == if n < Pow(10, 38) then STATUS_DECIMAL38_AVAILABLE else STATUS_OUTSIDE_DECIMAL38_RANGE;
      DecimalRoundTrip(n);
      DigitCount(n, 38);
    }
    if text.Some? && IsCanonicalDecimal(text.value) {
      CanonicalIsText(text.value);
      DigitCount(FromDecimal(text.value), 38);
    }
  }

  /** The raw tests accept unique keys, and rows whose text and status tell one amount, or that there is none. */
  lemma RawTestsAccept(raw: seq<LogRow>)
    ensures RawTestsPass(raw) <==>
      && D.CountDuplicateNaturalKeys(raw) == 0
      && forall r | r in raw ::
           || TellsAmount(r.fact.decimalText, r.fact.decodeStatus)
           || (r.fact.decimalText == None && r.fact.decodeStatus == STATUS_NOT_UINT256_WORD)
  {
    hide TellsAmount, IsCanonicalDecimal, D.UniqueKeys, D.Keys;
    D.DuplicateCountIsExact(raw);
    StatusesDiffer();
    forall r | r in raw ensures TellsAmount(r.fact.decimalText, r.fact.decodeStatus) <==>
      !BreaksUint256Contract(r.fact) && r.fact.decodeStatus != STATUS_NOT_UINT256_WORD
    {
      TellsWhen(r.fact.decimalText, r.fact.decodeStatus);
    }
  }

  /**
   The silver tests accept transfers between two addresses whose data is a word, which tell their amount, have a numeric
   one exactly when it is below 10^38, and have amounts of the token exactly when they are of the token.
   */
  lemma SilverTestsAccept(cfg: Config, silver: seq<TransferRow>)
    ensures SilverTestsPass(cfg, silver) <==> forall r | r in silver :: var t := r.columns;
      && IsLowerHex(t.fromAddress, 40) && IsLowerHex(t.toAddress, 40) && IsLowerHex(t.dataRaw, 64)
      && TellsAmount(t.rawAmountText, t.amountStatus)
      && (t.rawAmount.Some? <==> t.amountStatus == STATUS_DECIMAL38_AVAILABLE)
      && (t.usdtAmountText.Some? <==> t.contractAddress == Lower(cfg.usdtContract))
      && (t.amountUsdt.Some? <==> t.contractAddress == Lower(cfg.usdtContract))
      && (t.contractAddress == Lower(cfg.usdtContract) ==> t.rawAmount.Some?)
  {
    hide TellsAmount, IsCanonicalDecimal, IsLowerHex, Lower;
    StatusesDiffer();
    forall r | r in silver {
      TellsWhen(r.columns.rawAmountText, r.columns.amountStatus);
    }
  }

  /** The gold tests accept unique keys, and flows of the main chain's token and treasury with at least one transfer. */
  lemma GoldTestsAccept(cfg: Config, gold: seq<FlowRow>)
    ensures GoldTestsPass(cfg, gold) <==>
      && |KeysOf(gold)| == |gold|
      && forall r | r in gold ::
           && r.key == FlowKey(1, Lower(cfg.usdtContract), Lower(cfg.treasury), r.key.hourStart, r.key.direction)
           && r.columns.transferCount >= 1
  {
    hide Lower, KeysOf, Incremental.UniqueKeys;
    UniqueIsCount(gold);
  }

  // --- When they pass ---

  /** A row that matches its data keeps the uint256 contract. */
  lemma MatchingRowPasses(f: LogFact)
    requires D.MatchesItsData(f)
    ensures !BreaksUint256Contract(f)
  {
    hide IsCanonicalDecimal, DecodeUint256;
    if IsUint256Word(f.dataRaw) {
      WordTextIsExact(f.dataRaw);
      StatusesDiffer();
    } else {
      OtherDataHasNoText(f.dataRaw);
      StatusesDiffer();
    }
  }

  /** What every landed row has: text and status that match its data, data in lower case, and a hexadecimal contract. */
  predicate Normalized(f: LogFact) {
    D.MatchesItsData(f) && IsLower(f.dataRaw) && IsHexText(f.contractAddress)
  }

  /** The text of a transfer is the canonical decimal text of its 32-byte data word. */
  lemma TransferText(cfg: Config, f: LogFact)
    requires Normalized(f) && DecodeTransfer(cfg, f).Some?
    ensures IsUint256Word(f.dataRaw) && IsLower(f.dataRaw)
    ensures f.decimalText.Some? && IsCanonicalDecimal(f.decimalText.value)
    ensures f.decodeStatus == STATUS_DECIMAL38_AVAILABLE <==> |f.decimalText.value| <= 38
    ensures f.decodeStatus == STATUS_OUTSIDE_DECIMAL38_RANGE <==> |f.decimalText.value| > 38
  {
    hide DecodeUint256, IsCanonicalDecimal, DecodeTransfer, IsUint256Word;
    TransferColumns(cfg, f);
    StatusesDiffer();
    if IsUint256Word(f.dataRaw) {
      WordTextIsExact(f.dataRaw);
    } else {
      OtherDataHasNoText(f.dataRaw);
    }
  }

  /**
   A transfer derived from a normalized row passes every test but one. It lacks its amount, which fails that one,
   exactly when it is a transfer of the configured token whose text has more than 38 digits.
   */
  lemma DerivedTransferPasses(cfg: Config, f: LogFact)
    requires Normalized(f) && DecodeTransfer(cfg, f).Some?
    ensures var t := DecodeTransfer(cfg, f).value;
      && !BreaksNumericStatus(t) && !BreaksTransferShape(t) && !HasForeignAmount(cfg, t)
      && t.rawAmountText.Some?
      && (LacksAmount(cfg, t) <==> t.contractAddress == Lower(cfg.usdtContract) && |t.rawAmountText.value| > 38)
  {
    hide DecodeTransfer, DecodeUint256, IsCanonicalDecimal, DecodeAddress, Lower, HexValue;
    TransferColumns(cfg, f);
    TransferText(cfg, f);
    AmountsAreExact(cfg, f);
    AddressShape(f.topic1);
    AddressShape(f.topic2);
    StatusesDiffer();
  }
}
