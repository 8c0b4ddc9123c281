/**
 Rows and transfers read straight from the payloads of the chain's logs, and that the raw and silver tables hold just
 these, column by column, after any history.
 */
module ChainTransfers {
  import opened Wrappers
  import opened Arithmetic
  import opened Chain
  import opened Text
  import opened Uint256
  import opened LogNormalizer
  import opened Incremental
  import opened FixedPoint
  import opened Silver
  import opened Gold
  import opened DbtTests
  import opened Pipeline
  import opened Convergence
  import D = DeltaWriter
  import Q = QualitySummary
  import R = CleanRecomputation
  import T = TestHistories

  // --- Reading a payload ---

  /** The data of a log; none is as good as empty data. */
  function DataOf(l: RawLog): string {
    if l.data.Text? then Lower(l.data.text) else "0x"
  }

  predicate HasWord(l: RawLog) {
    l.data.Text? && IsHexText(l.data.text) && |l.data.text| == 66
  }

  function AmountOf(l: RawLog): nat
    requires HasWord(l)
  {
    HexValue(l.data.text[2..])
  }

  function StatusOf(l: RawLog): string {
    if !HasWord(l) then STATUS_NOT_UINT256_WORD
    else if AmountOf(l) < Pow(10, 38) then STATUS_DECIMAL38_AVAILABLE
    else STATUS_OUTSIDE_DECIMAL38_RANGE
  }

  function KeyOf(s: Setup, l: RawLog): LogKey
    requires WellFormed(l)
  {
    LogKey(s.chainId, Lower(l.transactionHash.text), HexValue(l.logIndex.text[2..]))
  }

  /** The row of a log of block b, collected for window w. */
  function FactOf(s: Setup, l: RawLog, b: nat, w: Window): LogFact
    requires WellFormed(l)
  {
    LogFact(s.chainId, b, Lower(l.blockHash.text), Lower(l.transactionHash.text),
            if l.transactionIndex.Text? then Some(HexValue(l.transactionIndex.text[2..])) else None,
            HexValue(l.logIndex.text[2..]), Lower(l.address.text),
            TopicColumn(l, 0), TopicColumn(l, 1), TopicColumn(l, 2), TopicColumn(l, 3),
            DataOf(l), if HasWord(l) then Some(ToDecimal(AmountOf(l))) else None, StatusOf(l), l.removed,
            s.chain.Time(b), s.chain.Time(b) / 86400, w.start, w.end)
  }

  /** An indexed address: a topic of 32 bytes. */
  predicate IsParty(l: RawLog, i: nat) {
    TopicColumn(l, i).Some? && |TopicColumn(l, i).value| == 66
  }

  /** Its last 20 bytes. */
  function Party(l: RawLog, i: nat): string
    requires IsParty(l, i)
  {
    "0x" + TopicColumn(l, i).value[26..]
  }

  /** A live Transfer event with two indexed parties and an amount of 32 bytes. */
  predicate IsTransferLog(l: RawLog) {
    && WellFormed(l) && l.removed != Some(true)
    && TopicColumn(l, 0) == Some(TRANSFER_TOPIC0) && IsParty(l, 1) && IsParty(l, 2) && TopicColumn(l, 3) == None
    && HasWord(l)
  }

  /** The transfer that such a log of block b stands for, collected for window w. */
  function TransferOf(s: Setup, l: RawLog, b: nat, w: Window): Transfer
    requires IsTransferLog(l)
  {
    var amount := AmountOf(l);
    var isToken := Lower(l.address.text) == Lower(s.cfg.usdtContract);
    Transfer(b, s.chain.Time(b), s.chain.Time(b) / 86400, w.start, w.end,
             Lower(l.address.text), Party(l, 1), Party(l, 2),
             DataOf(l), Some(ToDecimal(amount)), if amount < Pow(10, 38) then Some(amount) else None, StatusOf(l),
             if isToken && amount < Pow(10, 38) then Some(AmountText(ToDecimal(amount), s.cfg.usdtDecimals)) else None,
             if isToken && amount < Pow(10, 38) then Some(amount) else None)
  }

  // --- The pipeline's own decoding gives the same ---

  lemma FactIsRead(s: Setup, l: RawLog, b: nat, w: Window)
    requires HexQuantity(l.blockNumber) == Some(b)
    ensures FactOnChain(s, l, w).Some? <==> WellFormed(l)
    ensures WellFormed(l) ==> FactOnChain(s, l, w) == Some(FactOf(s, l, b, w))
  {
    hide NormalizeFact, WellFormed, HexValue, ToDecimal, Pow, Lower, TopicColumn, IsHexText;
    NormalizesWellFormed(l, s.chain.Time(b), s.chainId, w);
    if WellFormed(l) {
      RowKeepsThePayload(l, s.chain.Time(b), s.chainId, w);
      RowTellsTheAmount(l, s.chain.Time(b), s.chainId, w);
      FieldReads(l.blockNumber);
      RowMatchesItsData(l, s.chain.Time(b), s.chainId, w);
    }
  }

  lemma TopicColumnShape(l: RawLog, i: nat)
    requires WellFormed(l) && i < 4 && TopicColumn(l, i).Some?
    ensures var topic := TopicColumn(l, i).value;
      IsHexText(topic) && Lower(topic) == topic
  {
    hide IsQuantity, IsHexText, Lower;
    LowerKeepsHex(TopicFields(l)[i].text);
    LowerIsLower(TopicFields(l)[i].text);
    LowerIsLower(Lower(TopicFields(l)[i].text));
  }

  lemma PartyIsAddress(l: RawLog, i: nat)
    requires WellFormed(l) && i < 4
    ensures DecodeAddress(TopicColumn(l, i)) == if IsParty(l, i) then Some(Party(l, i)) else None
    ensures IsParty(l, i) <==> TopicColumn(l, i).Some? && IsUint256Word(Lower(TopicColumn(l, i).value))
  {
    hide WellFormed, TopicColumn, IsHexText;
    if TopicColumn(l, i).Some? {
      TopicColumnShape(l, i);
      if IsParty(l, i) {
        AddressShape(TopicColumn(l, i));
        HexTexts(DecodeAddress(TopicColumn(l, i)).value);
      }
    }
  }

  lemma DataIsRead(l: RawLog)
    requires WellFormed(l)
    ensures IsUint256Word(DataOf(l)) <==> HasWord(l)
    ensures IsUint256Word(DataOf(l)) ==> HexValue(DataOf(l)[2..]) == AmountOf(l)
  {
    hide HexValue, Lower;
    if l.data.Text? {
      LowerKeepsHex(l.data.text);
      LowerIsLower(l.data.text);
    }
  }

  lemma FactMatches(s: Setup, l: RawLog, b: nat, w: Window)
    requires HexQuantity(l.blockNumber) == Some(b) && WellFormed(l)
    ensures D.MatchesItsData(FactOf(s, l, b, w))
  {
    hide WellFormed, FactOf, HexValue, ToDecimal, Pow, Lower, TopicColumn, IsHexText, FactOnChain;
    FactIsRead(s, l, b, w);
    T.FactOnChainIsSound(s, l, w);
  }

  lemma AmountsAreRead(s: Setup, l: RawLog, b: nat, w: Window)
    requires HexQuantity(l.blockNumber) == Some(b) && IsTransferLog(l)
    requires DecodeTransfer(s.cfg, FactOf(s, l, b, w)).Some?
    ensures var t, u := DecodeTransfer(s.cfg, FactOf(s, l, b, w)).value, TransferOf(s, l, b, w);
      && t.rawAmount == u.rawAmount && t.amountUsdt == u.amountUsdt && t.usdtAmountText == u.usdtAmountText
  {
    hide WellFormed, HexValue, ToDecimal, Pow, Lower, TopicColumn, DecodeAddress, AmountText, Party,
         D.MatchesItsData, IsUint256Word, TryCast;
    var f := FactOf(s, l, b, w);
    FactMatches(s, l, b, w);
    DataIsRead(l);
    TransferColumns(s.cfg, f);
    AmountsAreExact(s.cfg, f);
    UsdtTextIsTheAmount(s.cfg, f);
  }

  /** Silver reads the row of a log as a transfer exactly when the log is one, and each column as its payload says. */
  lemma TransferIsRead(s: Setup, l: RawLog, b: nat, w: Window)
    requires HexQuantity(l.blockNumber) == Some(b) && WellFormed(l)
    ensures DecodeTransfer(s.cfg, FactOf(s, l, b, w)).Some? <==> IsTransferLog(l)
    ensures IsTransferLog(l) ==> DecodeTransfer(s.cfg, FactOf(s, l, b, w)) == Some(TransferOf(s, l, b, w))
  {
    hide WellFormed, HexValue, ToDecimal, Pow, Lower, TopicColumn, DecodeTransfer, DecodeAddress, AmountText, Party,
         D.MatchesItsData, HasWord, AmountOf, DataOf, IsUint256Word, StatusOf, IsParty;
    var f := FactOf(s, l, b, w);
    FactMatches(s, l, b, w);
    DataIsRead(l);
    TransfersAreErc20(s.cfg, f);
    PartyIsAddress(l, 1);
    PartyIsAddress(l, 2);
    if IsTransferLog(l) {
      TransferColumns(s.cfg, f);
      AmountsAreRead(s, l, b, w);
    }
  }

  // --- What the tables hold ---

  /** The log is well-formed and in a block whose time lies in the window. */
  ghost predicate Logged(s: Setup, w: Window, b: nat, l: RawLog) {
    l in s.chain.Logs(b) && InWindow(s.chain.Time(b), w) && WellFormed(l)
  }

  /** The fact is the row of one of the window's logs. */
  ghost predicate IsRowOf(s: Setup, w: Window, f: LogFact) {
    exists b: nat, l :: Logged(s, w, b, l) && f == FactOf(s, l, b, w)
  }

  /** The item is the transfer of one of the window's logs. */
  ghost predicate IsTransferIn(s: Setup, w: Window, x: Item) {
    exists b: nat, l :: Logged(s, w, b, l) && IsTransferLog(l) && x == (KeyOf(s, l), TransferOf(s, l, b, w))
  }

  lemma HonestBlock(chain: Chain, b: nat, l: RawLog)
    requires HonestLogs(chain) && l in chain.Logs(b)
    ensures HexQuantity(l.blockNumber) == Some(b)
  {
  }

  lemma FactsAreRows(s: Setup, w: Window, f: LogFact)
    requires SoundChain(s.chain)
    ensures f in WindowFacts(s, w) <==> IsRowOf(s, w, f)
  {
    hide StrictlyIncreasing, HonestLogs, OneBlockPerKey, WindowFacts, FactOnChain, FactOf, WellFormed, HexQuantity;
    if f in WindowFacts(s, w) {
      var b, l := FactInWindow(s, w, f);
      HonestBlock(s.chain, b, l);
      FactIsRead(s, l, b, w);
      assert Logged(s, w, b, l);
    }
    if IsRowOf(s, w, f) {
      var b: nat, l :| Logged(s, w, b, l) && f == FactOf(s, l, b, w);
      HonestBlock(s.chain, b, l);
      FactIsRead(s, l, b, w);
      FactOfLog(s, w, b, l);
    }
  }

  lemma RowColumns(s: Setup, l: RawLog, b: nat, w: Window)
    requires WellFormed(l)
    ensures FactOf(s, l, b, w).Key() == KeyOf(s, l) && FactOf(s, l, b, w).blockTimestamp == s.chain.Time(b)
  {
    hide HexValue, ToDecimal, Pow, Lower, TopicColumn, WellFormed;
  }

  lemma TransferMember(cfg: Config, facts: set<LogFact>, w: Window, x: Item)
    ensures x in Transfers(cfg, facts, w) <==>
      exists f ::
        f in facts && InWindow(f.blockTimestamp, w) && DecodeTransfer(cfg, f) == Some(x.1) && f.Key() == x.0
  {
    hide DecodeTransfer;
  }

  lemma TransfersAreTransfers(s: Setup, w: Window, x: Item)
    requires SoundChain(s.chain)
    ensures x in WindowTransfers(s, w) <==> IsTransferIn(s, w, x)
  {
    hide StrictlyIncreasing, HonestLogs, OneBlockPerKey, WindowFacts, FactOf, WellFormed, HexQuantity, DecodeTransfer,
         IsTransferLog, TransferOf, KeyOf, Transfers;
    TransferMember(s.cfg, WindowFacts(s, w), w, x);
    if x in WindowTransfers(s, w) {
      var f :| f in WindowFacts(s, w) && DecodeTransfer(s.cfg, f) == Some(x.1) && f.Key() == x.0;
      FactsAreRows(s, w, f);
      var b: nat, l :| Logged(s, w, b, l) && f == FactOf(s, l, b, w);
      HonestBlock(s.chain, b, l);
      TransferIsRead(s, l, b, w);
      RowColumns(s, l, b, w);
    }
    if IsTransferIn(s, w, x) {
      var b: nat, l :| Logged(s, w, b, l) && IsTransferLog(l) && x == (KeyOf(s, l), TransferOf(s, l, b, w));
      var f := FactOf(s, l, b, w);
      HonestBlock(s.chain, b, l);
      TransferIsRead(s, l, b, w);
      RowColumns(s, l, b, w);
      FactsAreRows(s, w, f);
    }
  }

  /**
   After any history the raw table says exactly what the logs of the landed windows' blocks say, column by column, and
   the silver table what the Transfer logs among those of the built windows say.
   */
  lemma TablesReadTheChain(s: Setup, runs: seq<Run>)
    requires SoundChain(s.chain) && Possible(s, runs)
    ensures var t := Play(s, runs);
      && (forall f :: f in D.Facts(t.raw) <==> exists w :: w in Reached(runs, RawLanded) && IsRowOf(s, w, f))
      && (forall x ::
            x in Contents(t.silver) <==> exists w :: w in Reached(runs, SilverBuilt) && IsTransferIn(s, w, x))
  {
    hide StrictlyIncreasing, HonestLogs, OneBlockPerKey, Possible, Play, Reached, WindowFacts, WindowTransfers,
         IsRowOf, IsTransferIn, D.Facts, Contents;
    RawAndSilverClosedForm(s, runs);
    forall w, f ensures f in WindowFacts(s, w) <==> IsRowOf(s, w, f) {
      FactsAreRows(s, w, f);
    }
    forall w, x ensures x in WindowTransfers(s, w) <==> IsTransferIn(s, w, x) {
      TransfersAreTransfers(s, w, x);
    }
  }

  // --- What the summary counts ---

  /** A transfer of the token between the treasury and someone else, of at most 38 digits. */
  predicate IsFlowLog(cfg: Config, l: RawLog) {
    && IsTransferLog(l) && Lower(l.address.text) == Lower(cfg.usdtContract) && AmountOf(l) < Pow(10, 38)
    && (Party(l, 1) == Lower(cfg.treasury) <==> Party(l, 2) != Lower(cfg.treasury))
  }

  lemma TransferIsDerived(s: Setup, l: RawLog, b: nat, w: Window)
    requires HexQuantity(l.blockNumber) == Some(b) && IsTransferLog(l)
    ensures T.Derived(s.cfg, TransferOf(s, l, b, w))
  {
    hide WellFormed, DecodeTransfer, Normalized, TransferOf, FactOf, FactOnChain;
    FactIsRead(s, l, b, w);
    TransferIsRead(s, l, b, w);
    T.FactOnChainIsSound(s, l, w);
    assert Normalized(FactOf(s, l, b, w));
  }

  lemma FlowLogsCount(s: Setup, l: RawLog, b: nat, w: Window)
    requires HexQuantity(l.blockNumber) == Some(b) && IsTransferLog(l)
    ensures var t := TransferOf(s, l, b, w);
      && (Counted(s.cfg, t) <==> IsFlowLog(s.cfg, l))
      && (DirectionOf(s.cfg, t) == Inflow <==> Party(l, 2) == Lower(s.cfg.treasury))
      && R.Word((KeyOf(s, l), t)) == AmountOf(l)
  {
    hide WellFormed, HexValue, ToDecimal, Pow, Lower, TopicColumn, AmountText, Party, Counted, IsUint256Word, T.Derived;
    TransferIsDerived(s, l, b, w);
    T.CountedTransfers(s.cfg, TransferOf(s, l, b, w));
    DataIsRead(l);
  }

  /** The item is one of the window's flow logs. */
  ghost predicate IsFlowIn(s: Setup, w: Window, x: Item) {
    exists b: nat, l :: Logged(s, w, b, l) && IsFlowLog(s.cfg, l) && x == (KeyOf(s, l), TransferOf(s, l, b, w))
  }

  /**
   The transfers that the summary of a finished window counts and adds up are the flow logs of the window's blocks, each
   for the amount in its data.
   */
  lemma SummaryReadsTheChain(s: Setup, runs: seq<Run>, w: Window)
    requires SoundChain(s.chain) && Possible(s, runs) && HoursApart(Reached(runs, GoldBuilt))
    requires w in Reached(runs, GoldBuilt)
    ensures var summary, items := Q.Summarize(Play(s, runs).gold, w), R.TreasuryItems(s, Play(s, runs), w);
      && (forall x :: x in items <==> IsFlowIn(s, w, x))
      && summary.transferCount == |items|
      && summary.totalInflowRaw == summary.totalInflowUsdt == R.WordSum(Q.Directed(s.cfg, items, Inflow))
      && summary.totalOutflowRaw == summary.totalOutflowUsdt == R.WordSum(Q.Directed(s.cfg, items, Outflow))
  {
    hide StrictlyIncreasing, HonestLogs, OneBlockPerKey, Landable, Possible, HoursApart, Play, Contents, AllFacts,
         WindowTransfers, AllTransfers, Reached, GoodWindows, Q.Summarize, R.WordSum, Q.Directed, Counted, WindowItems,
         IsTransferIn, IsFlowIn, D.Facts;
    R.SummaryIsConserved(s, runs, w);
    R.SummaryAddsUpTheWords(s, runs, w);
    RawAndSilverClosedForm(s, runs);
    ReachedIsGood(s, runs);
    ReachedNested(runs);
    GoodSubset(s, Reached(runs, SilverBuilt), Reached(runs, RawLanded));
    TransfersOfWindow(s, Reached(runs, SilverBuilt), w);
    forall x ensures x in WindowTransfers(s, w) && Counted(s.cfg, x.1) <==> IsFlowIn(s, w, x) {
      CountedInWindow(s, w, x);
    }
  }

  lemma CountedInWindow(s: Setup, w: Window, x: Item)
    requires SoundChain(s.chain)
    ensures x in WindowTransfers(s, w) && Counted(s.cfg, x.1) <==> IsFlowIn(s, w, x)
  {
    hide StrictlyIncreasing, HonestLogs, OneBlockPerKey, WindowTransfers, WellFormed, HexQuantity, TransferOf, KeyOf,
         Counted, IsTransferLog;
    TransfersAreTransfers(s, w, x);
    if x in WindowTransfers(s, w) {
      var b: nat, l :| Logged(s, w, b, l) && IsTransferLog(l) && x == (KeyOf(s, l), TransferOf(s, l, b, w));
      HonestBlock(s.chain, b, l);
      FlowLogsCount(s, l, b, w);
    }
    if IsFlowIn(s, w, x) {
      var b: nat, l :| Logged(s, w, b, l) && IsFlowLog(s.cfg, l) && x == (KeyOf(s, l), TransferOf(s, l, b, w));
      HonestBlock(s.chain, b, l);
      FlowLogsCount(s, l, b, w);
    }
  }
}
