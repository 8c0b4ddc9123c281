/** The data tests of the dbt build after any history of runs: all but one of them can never fail. */
module TestHistories {
  import opened Wrappers
  import opened Chain
  import opened Arithmetic
  import opened Text
  import opened Uint256
  import opened LogNormalizer
  import opened Incremental
  import opened Silver
  import opened Gold
  import opened DbtTests
  import opened Pipeline
  import opened Convergence
  import opened OverlappingWindows
  import D = DeltaWriter

  // --- What every stored row is, whatever the windows ---

  ghost predicate SoundFacts(s: Setup, facts: set<LogFact>) {
    forall f | f in facts :: Normalized(f) && f.chainId == s.chainId
  }

  /** The transfer is the decoding of a normalized row. */
  ghost predicate Derived(cfg: Config, t: Transfer) {
    exists f :: Normalized(f) && DecodeTransfer(cfg, f) == Some(t)
  }

  ghost predicate SoundTransfers(s: Setup, items: set<Item>) {
    forall x | x in items :: Derived(s.cfg, x.1) && x.0.chainId == s.chainId
  }

  ghost predicate SoundFlows(s: Setup, flows: set<(FlowKey, Flow)>) {
    forall x | x in flows ::
      && x.0.chainId == s.chainId && x.0.contractAddress == Lower(s.cfg.usdtContract)
      && x.0.treasury == Lower(s.cfg.treasury) && x.1.transferCount > 0
  }

  lemma FactOnChainIsSound(s: Setup, l: RawLog, w: Window)
    requires FactOnChain(s, l, w).Some?
    ensures Normalized(FactOnChain(s, l, w).value) && FactOnChain(s, l, w).value.chainId == s.chainId
  {
    hide RequiredHex, TopicOrNone, OptionalHexQuantity, DecodeUint256, IsLower, IsHexText, HexQuantity;
    HexStaysHex(l.address);
    RowMatchesItsData(l, s.chain.Time(HexQuantity(l.blockNumber).value), s.chainId, w);
  }

  lemma HexStaysHex(f: Field)
    requires RequiredHex(f).Some?
    ensures IsHexText(RequiredHex(f).value)
  {
    LowerKeepsHex(f.text);
  }

  lemma {:induction false} RowsOnChainAreSound(s: Setup, logs: seq<RawLog>, w: Window, ingestedAt: int)
    ensures SoundFacts(s, D.Facts(RowsOnChain(s, logs, w, ingestedAt)))
  {
    hide FactOnChain, Normalized;
    if logs == [] {
      D.NoKeys();
    } else {
      var front, last := logs[..|logs| - 1], logs[|logs| - 1];
      RowsOnChainAreSound(s, front, w, ingestedAt);
      if FactOnChain(s, last, w).Some? {
        FactOnChainIsSound(s, last, w);
      }
    }
  }

  lemma TransfersAreSound(s: Setup, facts: set<LogFact>, w: Window)
    requires SoundFacts(s, facts)
    ensures SoundTransfers(s, Transfers(s.cfg, facts, w))
  {
    hide Normalized, DecodeTransfer;
  }

  lemma FlowsAreSound(s: Setup, items: set<Item>)
    requires SoundTransfers(s, items)
    ensures SoundFlows(s, Flows(s.cfg, CountedItems(s.cfg, items)))
  {
    hide Derived, Fold;
    var counted := CountedItems(s.cfg, items);
    forall k | k in GroupKeys(s.cfg, counted)
      ensures k.chainId == s.chainId && k.contractAddress == Lower(s.cfg.usdtContract)
      ensures k.treasury == Lower(s.cfg.treasury) && FlowOf(s.cfg, counted, k).transferCount > 0
    {
      var x :| x in counted && FlowKeyOf(s.cfg, x) == k;
      assert x in Group(s.cfg, counted, k);
      FoldMeans(Group(s.cfg, counted, k));
    }
  }

  lemma UniqueIsFunctional(rows: seq<LogRow>)
    requires D.UniqueKeys(rows)
    ensures D.KeyFunctional(D.Facts(rows))
  {
    D.ConflictMeans(rows);
  }

  /** The three tables after any history: unique keys, and sound rows only. */
  ghost predicate SoundTables(s: Setup, t: Tables) {
    && D.UniqueKeys(t.raw) && SoundFacts(s, D.Facts(t.raw))
    && Incremental.UniqueKeys(t.silver) && SoundTransfers(s, Contents(t.silver))
    && Incremental.UniqueKeys(t.gold) && SoundFlows(s, Contents(t.gold))
  }

  lemma RawStaysSound(s: Setup, raw: seq<LogRow>, rows: seq<LogRow>)
    requires D.UniqueKeys(raw) && SoundFacts(s, D.Facts(raw)) && SoundFacts(s, D.Facts(rows))
    ensures D.UniqueKeys(D.InsertRows(raw, rows)) && SoundFacts(s, D.Facts(D.InsertRows(raw, rows)))
  {
    hide D.UniqueKeys, D.Facts, D.InsertRows, Normalized;
    D.InsertKeepsUnique(raw, rows);
    D.InsertExtends(raw, rows);
  }

  lemma SilverStaysSound(s: Setup, raw: seq<LogRow>, silver: seq<TransferRow>, w: Window)
    requires D.UniqueKeys(raw) && SoundFacts(s, D.Facts(raw))
    requires Incremental.UniqueKeys(silver) && SoundTransfers(s, Contents(silver))
    ensures var built := DeleteInsert(silver, SilverQuery(s.cfg, raw, w));
      Incremental.UniqueKeys(built) && SoundTransfers(s, Contents(built))
  {
    hide D.UniqueKeys, D.Facts, D.KeyFunctional, Incremental.UniqueKeys, Contents, SilverQuery, DeleteInsert, Derived,
         SoundFacts, Transfers;
    UniqueIsFunctional(raw);
    SilverQueryMeans(s.cfg, raw, w);
    TransfersAreSound(s, D.Facts(raw), w);
    DeleteInsertUnique(silver, SilverQuery(s.cfg, raw, w));
    DeleteInsertOverrides(silver, SilverQuery(s.cfg, raw, w));
  }

  lemma GoldStaysSound(s: Setup, silver: seq<TransferRow>, gold: seq<FlowRow>, w: Window, updatedAt: int)
    requires Incremental.UniqueKeys(silver) && SoundTransfers(s, Contents(silver))
    requires Incremental.UniqueKeys(gold) && SoundFlows(s, Contents(gold))
    ensures var built := DeleteInsert(gold, GoldQuery(s.cfg, silver, w, updatedAt));
      Incremental.UniqueKeys(built) && SoundFlows(s, Contents(built))
  {
    hide Incremental.UniqueKeys, Contents, GoldQuery, DeleteInsert, Derived, Flows, CountedItems, Lower;
    GoldQueryMeans(s.cfg, silver, w, updatedAt);
    assert SoundTransfers(s, WindowItems(Contents(silver), w));
    FlowsAreSound(s, WindowItems(Contents(silver), w));
    DeleteInsertUnique(gold, GoldQuery(s.cfg, silver, w, updatedAt));
    DeleteInsertOverrides(gold, GoldQuery(s.cfg, silver, w, updatedAt));
  }

  /** No assumption on the windows is needed: they may overlap, share hours, or be empty. */
  lemma {:induction false} TablesAreSound(s: Setup, runs: seq<Run>)
    requires StrictlyIncreasing(s.chain)
    ensures SoundTables(s, Play(s, runs))
  {
    hide D.UniqueKeys, D.Facts, D.InsertRows, Incremental.UniqueKeys, Contents, SilverQuery, GoldQuery, DeleteInsert,
         SoundFacts, SoundTransfers, SoundFlows, StrictlyIncreasing, WindowLogs, RowsOnChain;
    if runs == [] {
      EmptyTablesAreSound(s);
    } else {
      var front, r := runs[..|runs| - 1], runs[|runs| - 1];
      TablesAreSound(s, front);
      var t := Play(s, front);
      var rows := WindowRows(s, r.window, r.ingestedAt);
      RowsOnChainAreSound(s, WindowLogs(s.chain, r.window), r.window, r.ingestedAt);
      RawStaysSound(s, t.raw, rows);
      var raw := D.InsertRows(t.raw, rows);
      SilverStaysSound(s, raw, t.silver, r.window);
      var silver := DeleteInsert(t.silver, SilverQuery(s.cfg, raw, r.window));
      GoldStaysSound(s, silver, t.gold, r.window, r.updatedAt);
    }
  }

  lemma EmptyTablesAreSound(s: Setup)
    ensures SoundTables(s, Tables([], [], []))
  {
    hide Derived, Normalized;
  }

  // --- So the tests pass ---

  /** A transfer of the configured token whose amount has more than 38 digits. */
  ghost predicate IsWide(cfg: Config, t: Transfer) {
    && t.contractAddress == Lower(cfg.usdtContract)
    && t.rawAmountText.Some? && |t.rawAmountText.value| > 38
  }

  ghost predicate NoneWide(cfg: Config, items: set<Item>) {
    forall x | x in items :: !IsWide(cfg, x.1)
  }

  lemma SilverRowPasses(cfg: Config, t: Transfer)
    requires Derived(cfg, t)
    ensures !BreaksNumericStatus(t) && !BreaksTransferShape(t) && !HasForeignAmount(cfg, t)
    ensures LacksAmount(cfg, t) <==> IsWide(cfg, t)
  {
    hide Normalized, DecodeTransfer, BreaksNumericStatus, BreaksTransferShape, HasForeignAmount, LacksAmount;
    var f :| Normalized(f) && DecodeTransfer(cfg, f) == Some(t);
    DerivedTransferPasses(cfg, f);
  }

  lemma RawTestsAlwaysPass(s: Setup, raw: seq<LogRow>)
    requires D.UniqueKeys(raw) && SoundFacts(s, D.Facts(raw))
    ensures RawTestsPass(raw)
  {
    hide BreaksUint256Contract, D.UniqueKeys, D.MatchesItsData;
    forall r | r in raw ensures !BreaksUint256Contract(r.fact) {
      assert r.fact in D.Facts(raw);
      MatchingRowPasses(r.fact);
    }
  }

  lemma SilverTestsNeedNarrowAmounts(s: Setup, silver: seq<TransferRow>)
    requires SoundTransfers(s, Contents(silver))
    ensures SilverTestsPass(s.cfg, silver) <==> NoneWide(s.cfg, Contents(silver))
  {
    hide Derived, BreaksNumericStatus, BreaksTransferShape, HasForeignAmount, LacksAmount, IsWide;
    forall r | r in silver
      ensures !BreaksNumericStatus(r.columns) && !BreaksTransferShape(r.columns) && !HasForeignAmount(s.cfg, r.columns)
      ensures LacksAmount(s.cfg, r.columns) <==> IsWide(s.cfg, r.columns)
      ensures (r.key, r.columns) in Contents(silver)
    {
      assert (r.key, r.columns) in Contents(silver);
      SilverRowPasses(s.cfg, r.columns);
    }
  }

  lemma GoldTestsNeedMainnet(s: Setup, gold: seq<FlowRow>)
    requires Incremental.UniqueKeys(gold) && SoundFlows(s, Contents(gold))
    ensures GoldTestsPass(s.cfg, gold) <==> s.chainId == 1 || gold == []
  {
    hide Incremental.UniqueKeys, Lower;
    forall r | r in gold ensures BreaksFlow(s.cfg, r) <==> s.chainId != 1 {
      assert (r.key, r.columns) in Contents(gold);
    }
    if gold != [] {
      assert gold[0] in gold;
    }
  }

  /**
   After any history the raw tests pass, the silver tests pass exactly when no stored transfer of the configured
   token has more than 38 digits, and the gold tests pass exactly when the chain is the main one or gold is empty.
   */
  lemma TestsAfterAnyHistory(s: Setup, runs: seq<Run>)
    requires StrictlyIncreasing(s.chain)
    ensures var t := Play(s, runs);
      && RawTestsPass(t.raw)
      && (SilverTestsPass(s.cfg, t.silver) <==> NoneWide(s.cfg, Contents(t.silver)))
      && (GoldTestsPass(s.cfg, t.gold) <==> s.chainId == 1 || t.gold == [])
  {
    hide *;
    TablesAreSound(s, runs);
    var t := Play(s, runs);
    SoundTablesMean(s, t);
    RawTestsAlwaysPass(s, t.raw);
    SilverTestsNeedNarrowAmounts(s, t.silver);
    GoldTestsNeedMainnet(s, t.gold);
  }

  lemma SoundTablesMean(s: Setup, t: Tables)
    requires SoundTables(s, t)
    ensures D.UniqueKeys(t.raw) && SoundFacts(s, D.Facts(t.raw))
    ensures Incremental.UniqueKeys(t.silver) && SoundTransfers(s, Contents(t.silver))
    ensures Incremental.UniqueKeys(t.gold) && SoundFlows(s, Contents(t.gold))
  {
    hide D.UniqueKeys, Incremental.UniqueKeys, SoundFacts, SoundTransfers, SoundFlows;
  }

  /** A transfer of the configured token between the treasury and someone else. */
  ghost predicate IsTreasuryFlow(cfg: Config, t: Transfer) {
    && t.contractAddress == Lower(cfg.usdtContract)
    && (t.fromAddress == Lower(cfg.treasury) <==> t.toAddress != Lower(cfg.treasury))
  }

  /** Since gold is built only when the silver tests pass, its filter on amounts leaves no treasury flow out. */
  lemma NoTreasuryFlowIsLeftOut(cfg: Config, silver: seq<TransferRow>, x: Item)
    requires SilverTestsPass(cfg, silver) && x in Contents(silver)
    ensures Counted(cfg, x.1) <==> IsTreasuryFlow(cfg, x.1)
  {
    hide BreaksNumericStatus, BreaksTransferShape, HasForeignAmount, Lower;
    var r :| r in silver && (r.key, r.columns) == x;
  }

  /** Whatever the tests say: gold counts exactly the treasury flows whose data word is below 10^38. */
  lemma CountedTransfers(cfg: Config, t: Transfer)
    requires Derived(cfg, t)
    ensures IsUint256Word(t.dataRaw)
    ensures Counted(cfg, t) <==> IsTreasuryFlow(cfg, t) && HexValue(t.dataRaw[2..]) < Pow(10, 38)
  {
    hide DecodeTransfer, D.MatchesItsData, Lower, HexValue, Pow, IsHexText;
    var f :| Normalized(f) && DecodeTransfer(cfg, f) == Some(t);
    TransferColumns(cfg, f);
    TransfersAreErc20(cfg, f);
    WordsHave64Digits(f.dataRaw);
    AmountsAreExact(cfg, f);
    UsdtTextIsTheAmount(cfg, f);
    TransferText(cfg, f);
    StatusesDiffer();
  }

  // --- Which histories block themselves ---

  lemma NoneWideBare(cfg: Config, a: set<Item>, b: set<Item>)
    requires BareItems(a) == BareItems(b)
    ensures NoneWide(cfg, a) <==> NoneWide(cfg, b)
  {
    hide BareItem;
    forall x, y | BareItem(x) == BareItem(y) ensures IsWide(cfg, x.1) <==> IsWide(cfg, y.1) {
      SameButWindow(x, y);
    }
    forall x | x in a ensures BareItem(x) in BareItems(a) {
    }
    forall y | y in b ensures BareItem(y) in BareItems(b) {
    }
  }

  lemma SameButWindow(x: Item, y: Item)
    requires BareItem(x) == BareItem(y)
    ensures x.1.contractAddress == y.1.contractAddress && x.1.rawAmountText == y.1.rawAmountText
  {
    assert BareItem(x).1.contractAddress == x.1.contractAddress;
    assert BareItem(y).1.contractAddress == y.1.contractAddress;
    assert BareItem(x).1.rawAmountText == x.1.rawAmountText;
    assert BareItem(y).1.rawAmountText == y.1.rawAmountText;
  }

  /** The silver tests pass exactly when no built window has a transfer of the token with more than 38 digits. */
  lemma SilverTestsAfterAnyHistory(s: Setup, runs: seq<Run>)
    requires SoundChain(s.chain) && Feasible(s, runs)
    ensures SilverTestsPass(s.cfg, Play(s, runs).silver)
       <==> NoneWide(s.cfg, AllTransfers(s, Reached(runs, SilverBuilt)))
  {
    hide *;
    SoundMeans(s.chain);
    TestsAfterAnyHistory(s, runs);
    OverlappingClosedForm(s, runs);
    NoneWideBare(s.cfg, Contents(Play(s, runs).silver), AllTransfers(s, Reached(runs, SilverBuilt)));
  }

  /** One such transfer in silver keeps gold from being built in every later run, of whatever window. */
  lemma WideTransferBlocksForGood(s: Setup, runs: seq<Run>, more: seq<Run>)
    requires SoundChain(s.chain) && Feasible(s, runs) && Feasible(s, runs + more)
    requires !SilverTestsPass(s.cfg, Play(s, runs).silver)
    ensures !SilverTestsPass(s.cfg, Play(s, runs + more).silver)
  {
    hide StrictlyIncreasing, HonestLogs, OneBlockPerKey, Feasible, Play, SilverTestsPass, WindowTransfers, IsWide;
    SilverTestsAfterAnyHistory(s, runs);
    SilverTestsAfterAnyHistory(s, runs + more);
    assert forall r | r in runs :: r in runs + more;
    assert Reached(runs, SilverBuilt) <= Reached(runs + more, SilverBuilt);
    assert AllTransfers(s, Reached(runs, SilverBuilt)) <= AllTransfers(s, Reached(runs + more, SilverBuilt));
  }

  /**
   The tests of the next run, after any history: they pass exactly when neither the built windows nor the run's own
   window have a transfer of the token with more than 38 digits, and the chain is the main one or gold stays empty.
   */
  lemma TestsOfNextRun(s: Setup, runs: seq<Run>, w: Window, ingestedAt: int, updatedAt: int)
    requires SoundChain(s.chain) && Feasible(s, runs) && HasBlock(s.chain, w) && Landable(s, w)
    ensures var next := Effect(s, Play(s, runs), w, GoldBuilt, ingestedAt, updatedAt);
      TestsPass(s, Play(s, runs), w, ingestedAt, updatedAt) <==>
        && NoneWide(s.cfg, AllTransfers(s, Reached(runs, SilverBuilt) + {w}))
        && (s.chainId == 1 || next.gold == [])
  {
    hide StrictlyIncreasing, HonestLogs, OneBlockPerKey, Feasible, Landable, HasBlock, Play, Effect, Reached, NoneWide,
         AllTransfers, TestsPass, RawTestsPass, SilverTestsPass, GoldTestsPass;
    var r := Run(w, GoldBuilt, ingestedAt, updatedAt);
    OneMoreRun(s, runs, r);
    ReachedAdd(runs, r, SilverBuilt);
    TestsMean(s, Play(s, runs), w, ingestedAt, updatedAt);
    TestsAfterAnyHistory(s, runs + [r]);
    SilverTestsAfterAnyHistory(s, runs + [r]);
  }

  lemma OneMoreRun(s: Setup, runs: seq<Run>, r: Run)
    requires StrictlyIncreasing(s.chain) && Feasible(s, runs)
    requires r.stage != Aborted ==> HasBlock(s.chain, r.window) && Landable(s, r.window)
    ensures Feasible(s, runs + [r])
    ensures Play(s, runs + [r]) == Effect(s, Play(s, runs), r.window, r.stage, r.ingestedAt, r.updatedAt)
  {
    hide StrictlyIncreasing, Landable, Effect;
    assert (runs + [r])[..|runs|] == runs;
  }
}
