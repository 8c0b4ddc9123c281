/** Chains with a block every second and just two Transfer logs: what histories can lose, they can lose on these. */
module Receipts {
  import opened Wrappers
  import opened Chain
  import opened Arithmetic
  import opened Text
  import opened Uint256
  import opened LogNormalizer
  import opened FixedPoint
  import opened Silver
  import opened Gold
  import opened DbtTests
  import opened Pipeline
  import opened Convergence
  import T = TestHistories
  import D = DeltaWriter

  predicate IsAddress(a: string) {
    IsHexText(a) && |a| == 42
  }

  /** The configured token can have logs, and the configured treasury can be a party to a transfer. */
  predicate Countable(cfg: Config) {
    IsHexText(Lower(cfg.usdtContract)) && IsAddress(Lower(cfg.treasury))
  }

  // --- The chain ---

  /** An indexed address: the address in the last 20 bytes of a word. */
  function Topic(address: string): string
    requires |address| >= 2
  {
    "0x" + Zeros(24) + address[2..]
  }

  /** Some address that is not the treasury. */
  function Sender(cfg: Config): (address: string)
    ensures IsAddress(address) && Lower(address) != Lower(cfg.treasury)
  {
    var zero, one := "0x" + Zeros(40), "0x1" + Zeros(39);
    assert Lower(zero)[2] == '0' && Lower(one)[2] == '1';
    if Lower(zero) != Lower(cfg.treasury) then zero else one
  }

  /** When the first block is, when the two receipts are, and the amount that both of them are for. */
  datatype Plan = Plan(base: int, first: int, second: int, data: string) {
    predicate Valid() {
      base <= first && base <= second && first != second && IsUint256Word(data) && IsLower(data)
    }

    function At(k: nat): int {
      if k == 0 then first else second
    }

    function Block(k: nat): nat
      requires Valid()
    {
      At(k) - base
    }
  }

  /** The transaction of a receipt. */
  function Hash(k: nat): string {
    if k == 0 then "0x0" else "0x1"
  }

  /** The log of a transfer of the token to the treasury. */
  function Receipt(cfg: Config, p: Plan, k: nat): RawLog
    requires Countable(cfg) && p.Valid()
  {
    RawLog(Text("0x" + ToHex(p.Block(k))), Text("0x"), Text(Hash(k)), Missing, Text("0x0"),
           Text(Lower(cfg.usdtContract)),
           TopicList([Text(TRANSFER_TOPIC0), Text(Topic(Sender(cfg))), Text(Topic(Lower(cfg.treasury)))]),
           Text(p.data), Some(false))
  }

  function TimeOf(p: Plan, b: nat): int {
    p.base + b
  }

  /** A block every second, the two receipts in the blocks at their times, and no other logs. */
  ghost function ChainOf(cfg: Config, p: Plan): Chain
    requires Countable(cfg) && p.Valid()
  {
    Chain(imap b: nat | true :: TimeOf(p, b),
          imap[p.Block(0) := [Receipt(cfg, p, 0)], p.Block(1) := [Receipt(cfg, p, 1)]])
  }

  lemma ChainMeans(cfg: Config, p: Plan)
    requires Countable(cfg) && p.Valid()
    ensures var chain := ChainOf(cfg, p);
      && (forall b: nat :: chain.Time(b) == p.base + b)
      && (forall b: nat, l | l in chain.Logs(b) :: exists k: nat :: k < 2 && b == p.Block(k) && l == Receipt(cfg, p, k))
      && (forall k: nat | k < 2 :: Receipt(cfg, p, k) in chain.Logs(p.Block(k)))
  {
    hide Receipt, Countable, IsUint256Word, IsLower;
    var chain := ChainOf(cfg, p);
    assert forall b: nat :: chain.Time(b) == TimeOf(p, b);
    assert p.Block(0) != p.Block(1);
    assert chain.Logs(p.Block(0)) == [Receipt(cfg, p, 0)] && chain.Logs(p.Block(1)) == [Receipt(cfg, p, 1)];
  }

  lemma HashReads(k: nat)
    requires k < 2
    ensures RequiredHex(Text(Hash(k))) == Some(Hash(k)) && HexQuantity(Text("0x0")) == Some(0)
    ensures Hash(k)[2] == if k == 0 then '0' else '1'
  {
    assert Hash(k)[2..] == [if k == 0 then '0' else '1'];
    assert "0x0"[2..] == "0" && "0"[..0] == [];
    assert Lower(Hash(k)) == Hash(k);
  }

  lemma BlockReads(b: nat)
    ensures HexQuantity(Text("0x" + ToHex(b))) == Some(b)
  {
    assert ("0x" + ToHex(b))[2..] == ToHex(b);
    HexRoundTrip(b);
  }

  lemma ReceiptFields(cfg: Config, p: Plan, k: nat)
    requires Countable(cfg) && p.Valid() && k < 2
    ensures HexQuantity(Receipt(cfg, p, k).blockNumber) == Some(p.Block(k))
    ensures RequiredHex(Receipt(cfg, p, k).transactionHash) == Some(Hash(k))
  {
    hide HexQuantity, RequiredHex, Hash, Countable, Sender, Topic, ToHex;
    HashReads(k);
    BlockReads(p.Block(k));
  }

  lemma HashDiffers(j: nat, k: nat)
    requires j < 2 && k < 2 && Hash(j) == Hash(k)
    ensures j == k
  {
    HashReads(j);
    HashReads(k);
  }

  lemma ReceiptsAreSound(cfg: Config, p: Plan)
    requires Countable(cfg) && p.Valid()
    ensures SoundChain(ChainOf(cfg, p))
  {
    hide HexQuantity, RequiredHex, Receipt, Hash, Countable, ChainOf, p.Valid;
    var chain := ChainOf(cfg, p);
    ChainMeans(cfg, p);
    forall b: nat, l | l in chain.Logs(b) ensures HexQuantity(l.blockNumber) == Some(b) {
      var k: nat :| k < 2 && b == p.Block(k) && l == Receipt(cfg, p, k);
      ReceiptFields(cfg, p, k);
    }
    forall a: nat, b: nat, l, m | l in chain.Logs(a) && m in chain.Logs(b)
      && RequiredHex(l.transactionHash).Some? && RequiredHex(l.transactionHash) == RequiredHex(m.transactionHash)
      ensures a == b
    {
      var j: nat :| j < 2 && a == p.Block(j) && l == Receipt(cfg, p, j);
      var k: nat :| k < 2 && b == p.Block(k) && m == Receipt(cfg, p, k);
      ReceiptFields(cfg, p, j);
      ReceiptFields(cfg, p, k);
      HashDiffers(j, k);
    }
  }

  // --- The two amounts ---

  /** One base unit. */
  const UNIT_WORD := "0x" + Zeros(63) + "1"

  function Fs(n: nat): (s: string)
    ensures |s| == n && AllHex(s) && IsLower(s)
  {
    seq(n, i => 'f')
  }

  /** The largest amount that a word can hold. */
  const WIDE_WORD := "0x" + Fs(64)

  /** The amount has at most 38 digits. */
  predicate IsNarrow(data: string) {
    DecodeUint256(data).Some? && DecodeUint256(data).value.status == STATUS_DECIMAL38_AVAILABLE
  }

  lemma UnitIsNarrow()
    ensures IsUint256Word(UNIT_WORD) && IsLower(UNIT_WORD) && IsNarrow(UNIT_WORD)
  {
    assert UNIT_WORD[2..] == Zeros(63) + "1";
    assert Lower(UNIT_WORD) == UNIT_WORD;
    ZerosHaveNoValue(63);
    assert (Zeros(63) + "1")[..63] == Zeros(63);
    assert HexValue(UNIT_WORD[2..]) == 1;
  }

  lemma WideIsNotNarrow()
    ensures IsUint256Word(WIDE_WORD) && IsLower(WIDE_WORD) && !IsNarrow(WIDE_WORD)
  {
    hide Pow;
    assert WIDE_WORD[2..] == Fs(64);
    assert Lower(WIDE_WORD) == WIDE_WORD;
    FsValue(64);
    WordsExceed38Digits();
    StatusesDiffer();
  }

  lemma {:induction false} FsValue(n: nat)
    ensures HexValue(Fs(n)) + 1 == Pow(16, n)
  {
    if n == 0 {
    } else {
      assert Fs(n)[..n - 1] == Fs(n - 1);
      FsValue(n - 1);
    }
  }

  lemma WordsExceed38Digits()
    ensures Pow(16, 64) > DECIMAL38_MAX + 1
  {
    hide Pow;
    SmallPowers();
    PowAdd(16, 4, 4);
    PowAdd(16, 8, 8);
    PowAdd(16, 16, 16);
    PowAdd(16, 32, 32);
  }

  lemma {:induction false} ZerosHaveNoValue(n: nat)
    ensures AllHex(Zeros(n)) && HexValue(Zeros(n)) == 0
  {
    if n == 0 {
    } else {
      assert Zeros(n)[..n - 1] == Zeros(n - 1);
      ZerosHaveNoValue(n - 1);
    }
  }

  lemma TransferTopicIsHex()
    ensures IsHexText(TRANSFER_TOPIC0) && Lower(TRANSFER_TOPIC0) == TRANSFER_TOPIC0
  {
    hide IsHexText, AllHex, IsLower, Lower;
    TopicHead();
    TopicGroups();
    TopicTail();
    LongerHex("0xddf252ad1be2c89b", "69c2b068fc378daa");
    LongerHex("0xddf252ad1be2c89b" + "69c2b068fc378daa", "952ba7f163c4a116");
    LongerHex("0xddf252ad1be2c89b" + "69c2b068fc378daa" + "952ba7f163c4a116", "28f55a4df523b3ef");
    LowerIsLower(TRANSFER_TOPIC0);
  }

  lemma TopicHead()
    ensures IsHexText("0xddf252ad1be2c89b") && IsLower("0xddf252ad1be2c89b")
  {
  }

  lemma TopicGroups()
    ensures AllHex("69c2b068fc378daa") && IsLower("69c2b068fc378daa")
    ensures AllHex("952ba7f163c4a116") && IsLower("952ba7f163c4a116")
  {
  }

  lemma TopicTail()
    ensures AllHex("28f55a4df523b3ef") && IsLower("28f55a4df523b3ef")
  {
  }

  lemma LongerHex(s: string, t: string)
    requires IsHexText(s) && IsLower(s) && AllHex(t) && IsLower(t)
    ensures IsHexText(s + t) && IsLower(s + t)
  {
    assert (s + t)[2..] == s[2..] + t;
  }

  /** The configuration that the project comes with. */
  const DEFAULT_CONFIG := Config("0xdac17f958d2ee523" + "a2206206994597c1" + "3d831ec7",
                                 "0x5754284f345afc66" + "a98fbb0a0afe71e0" + "f007b949", 6)

  lemma DefaultTokenHead()
    ensures IsHexText("0xdac17f958d2ee523") && IsLower("0xdac17f958d2ee523")
  {
  }

  lemma DefaultTokenTail()
    ensures AllHex("a2206206994597c1") && IsLower("a2206206994597c1") && AllHex("3d831ec7") && IsLower("3d831ec7")
  {
  }

  lemma DefaultTreasuryHead()
    ensures IsHexText("0x5754284f345afc66") && IsLower("0x5754284f345afc66")
  {
  }

  lemma DefaultTreasuryTail()
    ensures AllHex("a98fbb0a0afe71e0") && IsLower("a98fbb0a0afe71e0") && AllHex("f007b949") && IsLower("f007b949")
  {
  }

  lemma DefaultIsCountable()
    ensures Countable(DEFAULT_CONFIG)
  {
    hide IsHexText, AllHex, IsLower, Lower;
    DefaultTokenHead();
    DefaultTokenTail();
    DefaultTreasuryHead();
    DefaultTreasuryTail();
    LongerHex("0xdac17f958d2ee523", "a2206206994597c1");
    LongerHex("0xdac17f958d2ee523" + "a2206206994597c1", "3d831ec7");
    LongerHex("0x5754284f345afc66", "a98fbb0a0afe71e0");
    LongerHex("0x5754284f345afc66" + "a98fbb0a0afe71e0", "f007b949");
    LowerIsLower(DEFAULT_CONFIG.usdtContract);
    LowerIsLower(DEFAULT_CONFIG.treasury);
  }

  // --- What the logs are worth ---

  lemma TopicIsWord(address: string)
    requires IsAddress(address)
    ensures IsHexText(Topic(address)) && |Topic(address)| == 66
    ensures DecodeAddress(Some(Lower(Topic(address)))) == Some(Lower(address))
  {
    var topic := Topic(address);
    assert topic[2..] == Zeros(24) + address[2..];
    var lowered := Lower(topic);
    LowerKeepsHex(topic);
    LowerIsLower(topic);
    LowerIsLower(lowered);
    assert lowered[26..] == Lower(address)[2..];
    assert "0x" + lowered[26..] == Lower(address);
    LowerIsLower(address);
    LowerIsLower(Lower(address));
  }

  /** The row of a receipt, when it is collected for some window. */
  lemma ReceiptRow(s: Setup, p: Plan, k: nat, w: Window)
    requires Countable(s.cfg) && p.Valid() && k < 2
    ensures FactOnChain(s, Receipt(s.cfg, p, k), w).Some?
    ensures var f := FactOnChain(s, Receipt(s.cfg, p, k), w).value;
      && f.Key() == LogKey(s.chainId, Hash(k), 0) && f.blockTimestamp == s.chain.Time(p.Block(k))
      && f.contractAddress == Lower(s.cfg.usdtContract) && IsErc20Shape(f)
      && (f.decodeStatus == STATUS_DECIMAL38_AVAILABLE <==> IsNarrow(p.data))
      && f.topic1 == Some(Lower(Topic(Sender(s.cfg)))) && f.topic2 == Some(Lower(Topic(Lower(s.cfg.treasury))))
  {
    hide HexQuantity, Hash, Sender, Topic, ToHex, DecodeUint256, Lower;
    HashReads(k);
    BlockReads(p.Block(k));
    TopicIsWord(Sender(s.cfg));
    TopicIsWord(Lower(s.cfg.treasury));
    WordTextIsExact(p.data);
    LowerIsLower(p.data);
    TransferTopicIsHex();
    LowerIsLower(s.cfg.usdtContract);
    LowerIsLower(Lower(s.cfg.usdtContract));
  }

  /** It is a transfer of the token to the treasury, and gold counts it when its amount is narrow. */
  lemma ReceiptDecodes(cfg: Config, f: LogFact)
    requires Countable(cfg) && Normalized(f) && IsErc20Shape(f) && f.contractAddress == Lower(cfg.usdtContract)
    requires f.topic1 == Some(Lower(Topic(Sender(cfg)))) && f.topic2 == Some(Lower(Topic(Lower(cfg.treasury))))
    ensures DecodeTransfer(cfg, f).Some?
    ensures var t := DecodeTransfer(cfg, f).value;
      && (Counted(cfg, t) <==> f.decodeStatus == STATUS_DECIMAL38_AVAILABLE) && DirectionOf(cfg, t) == Inflow
      && t.blockTimestamp == f.blockTimestamp && t.contractAddress == Lower(cfg.usdtContract)
      && (T.IsWide(cfg, t) <==> f.decodeStatus != STATUS_DECIMAL38_AVAILABLE)
      && t.intervalStart == f.intervalStart
  {
    hide DecodeAddress, TryCast, AmountText, Topic, Sender, Lower, HexValue, DecodeUint256, IsLower, IsCanonicalDecimal;
    TopicIsWord(Sender(cfg));
    TopicIsWord(Lower(cfg.treasury));
    LowerIsLower(cfg.treasury);
    LowerIsLower(Lower(cfg.treasury));
    TransferColumns(cfg, f);
    AmountsAreExact(cfg, f);
    TransferText(cfg, f);
  }

  ghost function ReceiptItem(s: Setup, p: Plan, k: nat, w: Window): (x: Item)
    requires Countable(s.cfg) && p.Valid() && k < 2
  {
    ReceiptRow(s, p, k, w);
    var f := FactOnChain(s, Receipt(s.cfg, p, k), w).value;
    T.FactOnChainIsSound(s, Receipt(s.cfg, p, k), w);
    ReceiptDecodes(s.cfg, f);
    (f.Key(), DecodeTransfer(s.cfg, f).value)
  }

  lemma ReceiptItemMeans(s: Setup, p: Plan, k: nat, w: Window)
    requires Countable(s.cfg) && p.Valid() && k < 2
    ensures var x := ReceiptItem(s, p, k, w);
      && x.0 == LogKey(s.chainId, Hash(k), 0) && x.1.blockTimestamp == s.chain.Time(p.Block(k))
      && x.1.intervalStart == w.start
      && (Counted(s.cfg, x.1) <==> IsNarrow(p.data)) && (T.IsWide(s.cfg, x.1) <==> !IsNarrow(p.data))
      && FlowKeyOf(s.cfg, x)
         == FlowKey(s.chainId, Lower(s.cfg.usdtContract), Lower(s.cfg.treasury), HourOf(x.1.blockTimestamp), Inflow)
  {
    hide DecodeTransfer, Counted, T.IsWide, DirectionOf, IsErc20Shape, Normalized, Lower, HourOf, Topic, Sender,
         Receipt, IsNarrow, NormalizeFact, FactOnChain;
    ReceiptRow(s, p, k, w);
    FactInterval(s, Receipt(s.cfg, p, k), w);
    T.FactOnChainIsSound(s, Receipt(s.cfg, p, k), w);
    ReceiptDecodes(s.cfg, FactOnChain(s, Receipt(s.cfg, p, k), w).value);
  }

  lemma FactInterval(s: Setup, l: RawLog, w: Window)
    requires FactOnChain(s, l, w).Some?
    ensures FactOnChain(s, l, w).value.intervalStart == w.start
  {
    hide RequiredHex, TopicOrNone, OptionalHexQuantity, DecodeUint256, HexQuantity;
  }

  // --- What the windows of such a chain hold ---

  ghost predicate HasReceipts(s: Setup, p: Plan) {
    Countable(s.cfg) && p.Valid() && s.chain == ChainOf(s.cfg, p)
  }

  lemma HasReceiptsMeans(s: Setup, p: Plan)
    requires HasReceipts(s, p)
    ensures Countable(s.cfg) && p.Valid() && SoundChain(s.chain)
    ensures forall b: nat :: s.chain.Time(b) == p.base + b
    ensures forall k: nat | k < 2 :: s.chain.Time(p.Block(k)) == p.At(k)
  {
    hide Countable, ChainOf, Receipt, StrictlyIncreasing, HonestLogs, OneBlockPerKey;
    ChainMeans(s.cfg, p);
    ReceiptsAreSound(s.cfg, p);
  }

  lemma LogIsReceipt(s: Setup, p: Plan, b: nat, l: RawLog) returns (k: nat)
    requires HasReceipts(s, p) && l in s.chain.Logs(b)
    ensures k < 2 && Countable(s.cfg) && p.Valid() && b == p.Block(k) && l == Receipt(s.cfg, p, k)
  {
    hide Countable, ChainOf, Receipt;
    ChainMeans(s.cfg, p);
    k :| k < 2 && b == p.Block(k) && l == Receipt(s.cfg, p, k);
  }

  /** A window's facts are the rows of the receipts in it. */
  lemma FactIsReceipt(s: Setup, p: Plan, u: Window, f: LogFact) returns (k: nat)
    requires HasReceipts(s, p) && SoundChain(s.chain) && f in WindowFacts(s, u)
    ensures k < 2 && Countable(s.cfg) && p.Valid() && InWindow(p.At(k), u)
    ensures FactOnChain(s, Receipt(s.cfg, p, k), u) == Some(f) && f.transactionHash == Hash(k)
  {
    hide HasReceipts, Countable, Receipt, StrictlyIncreasing, HonestLogs, OneBlockPerKey, WindowFacts, FactOnChain,
         IsErc20Shape, Hash;
    HasReceiptsMeans(s, p);
    var b, l := FactInWindow(s, u, f);
    k := LogIsReceipt(s, p, b, l);
    ReceiptRow(s, p, k, u);
  }

  /** Every window of such a chain can be landed. */
  lemma ReceiptsLandable(s: Setup, p: Plan, u: Window)
    requires HasReceipts(s, p) && SoundChain(s.chain)
    ensures Landable(s, u)
  {
    hide HasReceipts, Countable, Receipt, StrictlyIncreasing, HonestLogs, OneBlockPerKey, FactOnChain, WindowLogs,
         RowsOnChain, D.Facts, D.Conflict, D.ValidateUint256Contract, Normalized, IsErc20Shape, Hash;
    forall l | l in WindowLogs(s.chain, u) ensures FactOnChain(s, l, u).Some? {
      var b := LogInWindow(s.chain, u, l);
      var k := LogIsReceipt(s, p, b, l);
      ReceiptRow(s, p, k, u);
    }
    var rows := WindowRows(s, u, 0);
    forall f, g | f in D.Facts(rows) && g in D.Facts(rows) && f.Key() == g.Key() ensures f == g {
      var j := FactIsReceipt(s, p, u, f);
      var k := FactIsReceipt(s, p, u, g);
      HashDiffers(j, k);
    }
    D.ConflictMeans(rows);
    T.RowsOnChainAreSound(s, WindowLogs(s.chain, u), u, 0);
    forall r | r in rows ensures D.ValidateUint256Contract(r.fact).None? {
      RowIsAccepted(s, rows, r);
    }
  }

  lemma RowIsAccepted(s: Setup, rows: seq<LogRow>, r: LogRow)
    requires T.SoundFacts(s, D.Facts(rows)) && r in rows
    ensures D.ValidateUint256Contract(r.fact).None?
  {
    hide D.ValidateUint256Contract, D.MatchesItsData;
    assert r.fact in D.Facts(rows);
    D.ContractIsExact(r.fact);
  }

  /** Every window that does not start before the first block has a block. */
  lemma ReceiptsHaveBlocks(s: Setup, p: Plan, u: Window)
    requires HasReceipts(s, p) && p.base <= u.start < u.end
    ensures HasBlock(s.chain, u)
  {
    hide HasReceipts, Countable;
    HasReceiptsMeans(s, p);
    var b: nat := u.start - p.base;
    assert InWindow(s.chain.Time(b), u);
  }

  /** A receipt in a window is one of the window's transfers, and the window has no others. */
  lemma ReceiptsOfWindow(s: Setup, p: Plan, u: Window, x: Item)
    requires HasReceipts(s, p) && SoundChain(s.chain) && Countable(s.cfg) && p.Valid()
    ensures x in WindowTransfers(s, u)
       <==> exists k: nat :: k < 2 && InWindow(p.At(k), u) && x == ReceiptItem(s, p, k, u)
  {
    hide HasReceipts, Countable, Receipt, StrictlyIncreasing, HonestLogs, OneBlockPerKey, WindowFacts, FactOnChain,
         DecodeTransfer, WindowTransfers, Hash, IsErc20Shape, ChainOf;
    HasReceiptsMeans(s, p);
    if x in WindowTransfers(s, u) {
      TransferInWindow(s, u, x);
      var f :| f in WindowFacts(s, u) && DecodeTransfer(s.cfg, f) == Some(x.1) && f.Key() == x.0;
      var k := FactIsReceipt(s, p, u, f);
      assert x == ReceiptItem(s, p, k, u);
    }
    forall k: nat | k < 2 && InWindow(p.At(k), u) ensures ReceiptItem(s, p, k, u) in WindowTransfers(s, u) {
      ReceiptInChain(s, p, k);
      ReceiptRow(s, p, k, u);
      FactOfLog(s, u, p.Block(k), Receipt(s.cfg, p, k));
      ReceiptIsTransfer(s, p, u, k);
    }
  }

  lemma ReceiptInChain(s: Setup, p: Plan, k: nat)
    requires HasReceipts(s, p) && k < 2
    ensures Receipt(s.cfg, p, k) in s.chain.Logs(p.Block(k))
  {
    hide Countable, ChainOf, Receipt;
    ChainMeans(s.cfg, p);
  }

  lemma ReceiptIsTransfer(s: Setup, p: Plan, u: Window, k: nat)
    requires Countable(s.cfg) && p.Valid() && k < 2 && StrictlyIncreasing(s.chain)
    requires InWindow(s.chain.Time(p.Block(k)), u) && FactOnChain(s, Receipt(s.cfg, p, k), u).Some?
    requires FactOnChain(s, Receipt(s.cfg, p, k), u).value in WindowFacts(s, u)
    ensures ReceiptItem(s, p, k, u) in WindowTransfers(s, u)
  {
    hide Countable, Receipt, StrictlyIncreasing, WindowFacts, FactOnChain, DecodeTransfer, Counted, DirectionOf,
         IsErc20Shape, Normalized, Topic, Sender, Lower, T.IsWide;
    ReceiptRow(s, p, k, u);
    T.FactOnChainIsSound(s, Receipt(s.cfg, p, k), u);
    ReceiptDecodes(s.cfg, FactOnChain(s, Receipt(s.cfg, p, k), u).value);
  }
}
