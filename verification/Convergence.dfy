/**
 Whole histories of runs: any order, any number of retries, failures after any step. The tables always hold
 what the furthest runs of each window say, and nothing else.
 */
module Convergence {
  import opened Wrappers
  import opened Chain
  import opened LogNormalizer
  import opened Incremental
  import opened Silver
  import opened Gold
  import opened Pipeline
  import D = DeltaWriter
  import J = JsonRpc

  datatype Run = Run(window: Window, stage: Stage, ingestedAt: int, updatedAt: int)

  /** Every log names the block it is in, as an honest provider reports it. */
  ghost predicate HonestLogs(chain: Chain) {
    forall b: nat, l | l in chain.Logs(b) :: HexQuantity(l.blockNumber) == Some(b)
  }

  /** A transaction is in one block only: logs of different blocks have different natural keys. */
  ghost predicate OneBlockPerKey(chain: Chain) {
    forall a: nat, b: nat, l, m | l in chain.Logs(a) && m in chain.Logs(b)
      && RequiredHex(l.transactionHash).Some? && RequiredHex(l.transactionHash) == RequiredHex(m.transactionHash)
      && HexQuantity(l.logIndex).Some? && HexQuantity(l.logIndex) == HexQuantity(m.logIndex) :: a == b
  }

  ghost predicate SoundChain(chain: Chain) {
    StrictlyIncreasing(chain) && HonestLogs(chain) && OneBlockPerKey(chain)
  }

  /** Some block's time lies in the window; without one the search for the block range fails. */
  ghost predicate HasBlock(chain: Chain, w: Window) {
    exists b: nat :: InWindow(chain.Time(b), w)
  }

  /** Every run that has written something had a window with a block in it, and one whose batch can be landed. */
  ghost predicate Feasible(s: Setup, runs: seq<Run>)
    requires StrictlyIncreasing(s.chain)
  {
    forall r | r in runs && r.stage != Aborted :: HasBlock(s.chain, r.window) && Landable(s, r.window)
  }

  /** Moreover, the windows of those runs are the same or disjoint. */
  ghost predicate Possible(s: Setup, runs: seq<Run>)
    requires StrictlyIncreasing(s.chain)
  {
    && Feasible(s, runs)
    && (forall q, r | q in runs && r in runs && q.stage != Aborted && r.stage != Aborted ::
          q.window == r.window || Disjoint(q.window, r.window))
  }

  ghost function Play(s: Setup, runs: seq<Run>): Tables
    requires StrictlyIncreasing(s.chain)
  {
    if runs == [] then Tables([], [], [])
    else
      var r := runs[|runs| - 1];
      Effect(s, Play(s, runs[..|runs| - 1]), r.window, r.stage, r.ingestedAt, r.updatedAt)
  }

  /** The windows that some run took at least to the given stage. */
  ghost function Reached(runs: seq<Run>, stage: Stage): set<Window> {
    set r | r in runs && stage.Rank() <= r.stage.Rank() :: r.window
  }

  // --- What one window and a set of windows are worth ---

  /** The raw facts of a window: what one clean run lands. */
  ghost function WindowFacts(s: Setup, w: Window): set<LogFact>
    requires StrictlyIncreasing(s.chain)
  {
    D.Facts(WindowRows(s, w, 0))
  }

  ghost function WindowTransfers(s: Setup, w: Window): set<Item>
    requires StrictlyIncreasing(s.chain)
  {
    Transfers(s.cfg, WindowFacts(s, w), w)
  }

  ghost function WindowFlows(s: Setup, w: Window): set<(FlowKey, Flow)>
    requires StrictlyIncreasing(s.chain)
  {
    Flows(s.cfg, CountedItems(s.cfg, WindowTransfers(s, w)))
  }

  ghost function AllFacts(s: Setup, ws: set<Window>): set<LogFact>
    requires StrictlyIncreasing(s.chain)
  {
    set w, f | w in ws && f in WindowFacts(s, w) :: f
  }

  ghost function AllTransfers(s: Setup, ws: set<Window>): set<Item>
    requires StrictlyIncreasing(s.chain)
  {
    set w, x | w in ws && x in WindowTransfers(s, w) :: x
  }

  ghost function AllFlows(s: Setup, ws: set<Window>): set<(FlowKey, Flow)>
    requires StrictlyIncreasing(s.chain)
  {
    set w, x | w in ws && x in WindowFlows(s, w) :: x
  }

  /** The instant lies in one of the windows. */
  ghost predicate InSome(timestamp: int, ws: set<Window>) {
    exists w :: w in ws && InWindow(timestamp, w)
  }

  /** The silver query without its window filter: every transfer among the facts. */
  ghost function FullTransfers(cfg: Config, facts: set<LogFact>): set<Item> {
    set f | f in facts && DecodeTransfer(cfg, f).Some? :: (f.Key(), DecodeTransfer(cfg, f).value)
  }

  // --- Rows stay inside their interval ---

  /** Every fact of a window comes from one log of one of its blocks. */
  lemma {:induction false} RowsHaveLogs(s: Setup, logs: seq<RawLog>, w: Window, ingestedAt: int, f: LogFact)
    requires f in D.Facts(RowsOnChain(s, logs, w, ingestedAt))
    ensures exists l :: l in logs && FactOnChain(s, l, w) == Some(f)
  {
    hide FactOnChain;
    if logs == [] {
      D.NoKeys();
    } else {
      var front, l := logs[..|logs| - 1], logs[|logs| - 1];
      var rows := RowsOnChain(s, front, w, ingestedAt);
      if FactOnChain(s, l, w) == Some(f) {
        assert l in logs;
      } else {
        var r :| r in RowsOnChain(s, logs, w, ingestedAt) && r.fact == f;
        assert r in rows;
        RowsHaveLogs(s, front, w, ingestedAt, f);
        var k :| k in front && FactOnChain(s, k, w) == Some(f);
        assert k in logs;
      }
    }
  }

  /** A landed row's block time lies in the window, and its interval columns are the window. */
  lemma FactInWindow(s: Setup, w: Window, f: LogFact) returns (b: nat, l: RawLog)
    requires SoundChain(s.chain) && f in WindowFacts(s, w)
    ensures InWindow(f.blockTimestamp, w) && f.intervalStart == w.start && f.intervalEnd == w.end
    ensures l in s.chain.Logs(b) && FactOnChain(s, l, w) == Some(f)
    ensures b == f.blockNumber && f.blockTimestamp == s.chain.Time(b)
  {
    hide RowsOnChain, D.Facts, NormalizeFact, OneBlockPerKey, FirstAtOrAfter, BlockLogs, HexQuantity;
    RowsHaveLogs(s, WindowLogs(s.chain, w), w, 0, f);
    l :| l in WindowLogs(s.chain, w) && FactOnChain(s, l, w) == Some(f);
    b := LogInWindow(s.chain, w, l);
    RowMatchesItsData(l, s.chain.Time(b), s.chainId, w);
  }

  /** A log of a window is one of a block whose time lies in it. */
  lemma LogInWindow(chain: Chain, w: Window, l: RawLog) returns (b: nat)
    requires StrictlyIncreasing(chain) && l in WindowLogs(chain, w)
    ensures l in chain.Logs(b) && InWindow(chain.Time(b), w)
  {
    hide StrictlyIncreasing, BlockLogs, FirstAtOrAfter;
    BlockLogsMember(chain, FirstBlock(chain, w.start), FirstBlock(chain, w.end), l);
    b :| FirstBlock(chain, w.start) <= b < FirstBlock(chain, w.end) && l in chain.Logs(b);
    IntervalIsBlockRange(chain, w.start, w.end, b);
  }

  /** Conversely, every log of a block whose time lies in the window is one of the window's logs ... */
  lemma LogOfWindow(chain: Chain, w: Window, b: nat, l: RawLog)
    requires StrictlyIncreasing(chain) && l in chain.Logs(b) && InWindow(chain.Time(b), w)
    ensures l in WindowLogs(chain, w)
  {
    hide StrictlyIncreasing, BlockLogs, FirstAtOrAfter;
    IntervalIsBlockRange(chain, w.start, w.end, b);
    BlockLogsMember(chain, FirstBlock(chain, w.start), FirstBlock(chain, w.end), l);
  }

  lemma {:induction false} RowOfLog(s: Setup, logs: seq<RawLog>, w: Window, ingestedAt: int, l: RawLog)
    requires l in logs && FactOnChain(s, l, w).Some?
    ensures FactOnChain(s, l, w).value in D.Facts(RowsOnChain(s, logs, w, ingestedAt))
  {
    hide FactOnChain, D.Facts;
    var front, last := logs[..|logs| - 1], logs[|logs| - 1];
    assert logs == front + [last];
    if l in front {
      RowOfLog(s, front, w, ingestedAt, l);
    }
    if FactOnChain(s, last, w).Some? {
      var row := LogRow(FactOnChain(s, last, w).value, ingestedAt);
      D.KeysAppend(RowsOnChain(s, front, w, ingestedAt), [row]);
      D.KeysOne(row);
    }
  }

  /** ... and its fact, if it has one, is one of the window's facts. */
  lemma FactOfLog(s: Setup, w: Window, b: nat, l: RawLog)
    requires StrictlyIncreasing(s.chain) && l in s.chain.Logs(b) && InWindow(s.chain.Time(b), w)
    requires FactOnChain(s, l, w).Some?
    ensures FactOnChain(s, l, w).value in WindowFacts(s, w)
  {
    hide StrictlyIncreasing, FactOnChain, D.Facts, RowsOnChain, WindowLogs, FirstAtOrAfter;
    LogOfWindow(s.chain, w, b, l);
    RowOfLog(s, WindowLogs(s.chain, w), w, 0, l);
  }

  lemma HonestNumber(chain: Chain, b: nat, l: RawLog)
    requires HonestLogs(chain) && l in chain.Logs(b)
    ensures l.blockNumber.Text? && LooseHex(l.blockNumber.text) == Some(b)
  {
    assert HexQuantity(l.blockNumber) == Some(b);
  }

  lemma LaterBlock(chain: Chain, a: nat, b: nat)
    requires StrictlyIncreasing(chain)
    ensures chain.Time(a) <= chain.Time(b) ==> a <= b
  {
  }

  /** On an honest chain a window inside the provider's reach never fails for the block numbers of its logs. */
  lemma HonestWindowIsFetchable(provider: J.Provider, expectedChainId: int, w: Window, maxBlocks: int)
    requires SoundChain(provider.chain)
    requires provider.oldest == 0 || provider.chain.Time(provider.oldest) <= w.start
    ensures Fetchable(provider, expectedChainId, w, maxBlocks) <==>
      && provider.chainId == expectedChainId && 1 <= maxBlocks <= 10
      && w.start < w.end <= provider.chain.Time(provider.head)
      && exists b: nat :: InWindow(provider.chain.Time(b), w)
  {
    hide HonestLogs, OneBlockPerKey, WindowLogs, LooseHex;
    var logs := WindowLogs(provider.chain, w);
    forall l | l in logs
      ensures l.blockNumber.Text? && LooseHex(l.blockNumber.text).Some?
      ensures provider.oldest <= LooseHex(l.blockNumber.text).value
      ensures w.end <= provider.chain.Time(provider.head) ==> LooseHex(l.blockNumber.text).value <= provider.head
    {
      var b := LogInWindow(provider.chain, w, l);
      HonestNumber(provider.chain, b, l);
      LaterBlock(provider.chain, provider.oldest, b);
      LaterBlock(provider.chain, b, provider.head);
    }
    EmptyInterval(provider.chain, w);
  }

  // --- Keys identify logs across windows ---

  /** Windows whose batches can be landed, any two of them the same or disjoint. */
  ghost predicate GoodWindows(s: Setup, ws: set<Window>)
    requires StrictlyIncreasing(s.chain)
  {
    && (forall w | w in ws :: Landable(s, w))
    && (forall v, w | v in ws && w in ws :: v == w || Disjoint(v, w))
  }

  lemma KeyColumns(s: Setup, l: RawLog, w: Window)
    requires FactOnChain(s, l, w).Some?
    ensures var f := FactOnChain(s, l, w).value;
      && RequiredHex(l.transactionHash) == Some(f.transactionHash)
      && HexQuantity(l.logIndex) == Some(f.logIndex)
  {
    hide RequiredHex, HexQuantity, TopicOrNone, OptionalHexQuantity;
  }

  /** A natural key determines the fact, and the window it is in. */
  lemma KeyDeterminesFact(s: Setup, v: Window, w: Window, f: LogFact, g: LogFact)
    requires SoundChain(s.chain) && f in WindowFacts(s, v) && g in WindowFacts(s, w)
    requires f.Key() == g.Key() && (v == w || Disjoint(v, w)) && Landable(s, v)
    ensures v == w && f == g
  {
    hide FactOnChain, WindowFacts, D.Facts, D.Conflict, StrictlyIncreasing, HonestLogs, D.KeyFunctional;
    var b, l := FactInWindow(s, v, f);
    var c, m := FactInWindow(s, w, g);
    KeyColumns(s, l, v);
    KeyColumns(s, m, w);
    assert b == c;
    WindowFactsFunctional(s, v);
    SameKeySameFact(WindowFacts(s, v), f, g);
  }

  lemma WindowFactsFunctional(s: Setup, w: Window)
    requires StrictlyIncreasing(s.chain) && Landable(s, w)
    ensures D.KeyFunctional(WindowFacts(s, w))
  {
    D.ConflictMeans(WindowRows(s, w, 0));
  }

  lemma SameKeySameFact(facts: set<LogFact>, f: LogFact, g: LogFact)
    requires D.KeyFunctional(facts)
    ensures f in facts && g in facts && f.Key() == g.Key() ==> f == g
  {
  }

  lemma AllFactsFunctional(s: Setup, ws: set<Window>)
    requires SoundChain(s.chain) && GoodWindows(s, ws)
    ensures D.KeyFunctional(AllFacts(s, ws))
  {
    hide WindowFacts, Landable, StrictlyIncreasing, HonestLogs, OneBlockPerKey;
    forall f, g | f in AllFacts(s, ws) && g in AllFacts(s, ws) && f.Key() == g.Key() ensures f == g {
      var v :| v in ws && f in WindowFacts(s, v);
      var w :| w in ws && g in WindowFacts(s, w);
      KeyDeterminesFact(s, v, w, f, g);
    }
  }

  lemma AllFactsAdd(s: Setup, ws: set<Window>, w: Window)
    requires StrictlyIncreasing(s.chain)
    ensures AllFacts(s, ws + {w}) == AllFacts(s, ws) + WindowFacts(s, w)
    ensures AllTransfers(s, ws + {w}) == AllTransfers(s, ws) + WindowTransfers(s, w)
    ensures AllFlows(s, ws + {w}) == AllFlows(s, ws) + WindowFlows(s, w)
  {
    hide WindowFacts, WindowTransfers, WindowFlows, StrictlyIncreasing;
  }

  // --- One run, step by step ---

  /** Landing a window adds its facts, if they are not there yet. */
  lemma RawStep(s: Setup, raw: seq<LogRow>, ws: set<Window>, w: Window, ingestedAt: int)
    requires SoundChain(s.chain) && GoodWindows(s, ws + {w})
    requires D.Facts(raw) == AllFacts(s, ws)
    ensures D.Facts(D.InsertRows(raw, WindowRows(s, w, ingestedAt))) == AllFacts(s, ws + {w})
  {
    hide D.Facts, D.InsertRows, D.KeyFunctional, D.Acceptable, AllFacts, RowsOnChain, StrictlyIncreasing,
         WindowLogs;
    AllFactsFunctional(s, ws + {w});
    AllFactsAdd(s, ws, w);
    assert Landable(s, w);
    AcceptableIgnoresIngestion(s, WindowLogs(s.chain, w), w, 0, ingestedAt);
    D.InsertIsUnion(raw, WindowRows(s, w, ingestedAt));
  }

  /** The facts inside a window are that window's own. */
  lemma FactsOfWindow(s: Setup, ws: set<Window>, w: Window)
    requires SoundChain(s.chain) && GoodWindows(s, ws) && w in ws
    ensures Transfers(s.cfg, AllFacts(s, ws), w) == WindowTransfers(s, w)
  {
    hide WindowFacts, Landable, DecodeTransfer, StrictlyIncreasing, HonestLogs, OneBlockPerKey;
    forall f | f in AllFacts(s, ws) && InWindow(f.blockTimestamp, w) ensures f in WindowFacts(s, w) {
      var v :| v in ws && f in WindowFacts(s, v);
      var b, l := FactInWindow(s, v, f);
    }
    assert WindowFacts(s, w) <= AllFacts(s, ws);
  }

  /** A window's transfers lie in it and carry it as their interval. */
  lemma TransferInWindow(s: Setup, w: Window, x: Item)
    requires SoundChain(s.chain) && x in WindowTransfers(s, w)
    ensures InWindow(x.1.blockTimestamp, w) && x.1.intervalStart == w.start
    ensures exists f :: f in WindowFacts(s, w) && DecodeTransfer(s.cfg, f) == Some(x.1) && f.Key() == x.0
  {
    hide WindowFacts, DecodeTransfer, StrictlyIncreasing, HonestLogs, OneBlockPerKey;
    var f :| f in WindowFacts(s, w) && InWindow(f.blockTimestamp, w) && DecodeTransfer(s.cfg, f).Some?
      && x == (f.Key(), DecodeTransfer(s.cfg, f).value);
    TransferColumns(s.cfg, f);
    var b, l := FactInWindow(s, w, f);
  }

  lemma AllTransfersFunctional(s: Setup, ws: set<Window>)
    requires SoundChain(s.chain) && GoodWindows(s, ws)
    ensures Functional(AllTransfers(s, ws))
  {
    hide WindowFacts, Landable, DecodeTransfer, WindowTransfers, StrictlyIncreasing, HonestLogs, OneBlockPerKey;
    forall x, y | x in AllTransfers(s, ws) && y in AllTransfers(s, ws) && x.0 == y.0 ensures x == y {
      var v :| v in ws && x in WindowTransfers(s, v);
      var w :| w in ws && y in WindowTransfers(s, w);
      TransferInWindow(s, v, x);
      TransferInWindow(s, w, y);
      var f :| f in WindowFacts(s, v) && DecodeTransfer(s.cfg, f) == Some(x.1) && f.Key() == x.0;
      var g :| g in WindowFacts(s, w) && DecodeTransfer(s.cfg, g) == Some(y.1) && g.Key() == y.0;
      KeyDeterminesFact(s, v, w, f, g);
    }
  }

  /** Building silver for a landed window adds its transfers, if they are not there yet. */
  lemma SilverStep(s: Setup, raw: seq<LogRow>, silver: seq<TransferRow>, landed: set<Window>, built: set<Window>,
                   w: Window)
    requires SoundChain(s.chain) && GoodWindows(s, landed) && built <= landed && w in landed
    requires D.Facts(raw) == AllFacts(s, landed) && Contents(silver) == AllTransfers(s, built)
    ensures Contents(DeleteInsert(silver, SilverQuery(s.cfg, raw, w))) == AllTransfers(s, built + {w})
  {
    hide AllFacts, AllTransfers, Landable, Functional, D.KeyFunctional, SilverQuery, DeleteInsert, Contents,
         WindowTransfers, Transfers, D.Facts, StrictlyIncreasing, HonestLogs, OneBlockPerKey;
    AllFactsFunctional(s, landed);
    SilverQueryMeans(s.cfg, raw, w);
    FactsOfWindow(s, landed, w);
    AllFactsAdd(s, built, w);
    AllTransfersFunctional(s, built + {w});
    DeleteInsertIsUnion(silver, SilverQuery(s.cfg, raw, w));
  }

  lemma TransferOfWindows(s: Setup, ws: set<Window>, x: Item)
    requires StrictlyIncreasing(s.chain)
    ensures x in AllTransfers(s, ws) <==> exists v :: v in ws && x in WindowTransfers(s, v)
  {
    hide WindowTransfers, StrictlyIncreasing;
  }

  /** The stored transfers inside a window are that window's own. */
  lemma TransfersOfWindow(s: Setup, ws: set<Window>, w: Window)
    requires SoundChain(s.chain) && GoodWindows(s, ws) && w in ws
    ensures WindowItems(AllTransfers(s, ws), w) == WindowTransfers(s, w)
  {
    hide WindowTransfers, AllTransfers, Landable, StrictlyIncreasing, HonestLogs, OneBlockPerKey;
    forall x ensures x in WindowItems(AllTransfers(s, ws), w) <==> x in WindowTransfers(s, w) {
      TransferOfWindows(s, ws, x);
      if x in WindowTransfers(s, w) {
        TransferInWindow(s, w, x);
      } else if x in WindowItems(AllTransfers(s, ws), w) {
        var v :| v in ws && x in WindowTransfers(s, v);
        TransferInWindow(s, v, x);
      }
    }
  }

  /** No two of the windows share a clock hour. */
  ghost predicate HoursApart(ws: set<Window>) {
    forall v, w | v in ws && w in ws && v != w :: HourApart(v, w)
  }

  lemma WindowGroupsApart(s: Setup, v: Window, w: Window)
    requires SoundChain(s.chain) && HourApart(v, w)
    ensures GroupKeys(s.cfg, CountedItems(s.cfg, WindowTransfers(s, v)))
         !! GroupKeys(s.cfg, CountedItems(s.cfg, WindowTransfers(s, w)))
  {
    hide WindowTransfers, Counted, StrictlyIncreasing, HonestLogs, OneBlockPerKey;
    forall x | x in WindowTransfers(s, v) ensures InWindow(x.1.blockTimestamp, v) { TransferInWindow(s, v, x); }
    forall x | x in WindowTransfers(s, w) ensures InWindow(x.1.blockTimestamp, w) { TransferInWindow(s, w, x); }
    HourApartGroups(s.cfg, CountedItems(s.cfg, WindowTransfers(s, v)), CountedItems(s.cfg, WindowTransfers(s, w)), v,
                    w);
  }

  lemma FlowHasGroup(s: Setup, w: Window, x: (FlowKey, Flow))
    requires StrictlyIncreasing(s.chain) && x in WindowFlows(s, w)
    ensures x.0 in GroupKeys(s.cfg, CountedItems(s.cfg, WindowTransfers(s, w)))
  {
  }

  lemma AllFlowsFunctional(s: Setup, ws: set<Window>)
    requires SoundChain(s.chain) && HoursApart(ws)
    ensures Functional(AllFlows(s, ws))
  {
    hide WindowFlows, WindowTransfers, HourApart, GroupKeys, CountedItems, StrictlyIncreasing, HonestLogs,
         OneBlockPerKey;
    forall x, y | x in AllFlows(s, ws) && y in AllFlows(s, ws) && x.0 == y.0 ensures x == y {
      var v :| v in ws && x in WindowFlows(s, v);
      var w :| w in ws && y in WindowFlows(s, w);
      FlowHasGroup(s, v, x);
      FlowHasGroup(s, w, y);
      if v != w { WindowGroupsApart(s, v, w); }
      WindowFlowsFunctional(s, v, x, y);
    }
  }

  lemma WindowFlowsFunctional(s: Setup, w: Window, x: (FlowKey, Flow), y: (FlowKey, Flow))
    requires StrictlyIncreasing(s.chain) && x in WindowFlows(s, w) && y in WindowFlows(s, w) && x.0 == y.0
    ensures x == y
  {
  }

  /** Building gold for a window whose silver is built adds its flows, if they are not there yet. */
  lemma GoldStep(s: Setup, silver: seq<TransferRow>, gold: seq<FlowRow>, built: set<Window>, done: set<Window>,
                 w: Window,
                 updatedAt: int)
    requires SoundChain(s.chain) && GoodWindows(s, built) && done <= built && w in built && HoursApart(done + {w})
    requires Incremental.UniqueKeys(silver)
    requires Contents(silver) == AllTransfers(s, built) && Contents(gold) == AllFlows(s, done)
    ensures Contents(DeleteInsert(gold, GoldQuery(s.cfg, silver, w, updatedAt))) == AllFlows(s, done + {w})
  {
    hide AllTransfers, AllFlows, Landable, Functional, GoldQuery, DeleteInsert, Contents, WindowTransfers, Flows,
         CountedItems, WindowItems, HoursApart, GoodWindows, StrictlyIncreasing, HonestLogs, OneBlockPerKey;
    GoldQueryMeans(s.cfg, silver, w, updatedAt);
    TransfersOfWindow(s, built, w);
    AllFactsAdd(s, done, w);
    AllFlowsFunctional(s, done + {w});
    DeleteInsertIsUnion(gold, GoldQuery(s.cfg, silver, w, updatedAt));
  }

  // --- Every history ---

  lemma ReachedAdd(runs: seq<Run>, r: Run, stage: Stage)
    ensures Reached(runs + [r], stage)
         == if stage.Rank() <= r.stage.Rank() then Reached(runs, stage) + {r.window} else Reached(runs, stage)
  {
    assert r in runs + [r];
    assert forall q :: q in runs + [r] <==> q in runs || q == r;
  }

  lemma ReachedNested(runs: seq<Run>)
    ensures Reached(runs, GoldBuilt) <= Reached(runs, SilverBuilt) <= Reached(runs, RawLanded)
  {
  }

  lemma ReachedIsGood(s: Setup, runs: seq<Run>)
    requires StrictlyIncreasing(s.chain) && Possible(s, runs)
    ensures GoodWindows(s, Reached(runs, RawLanded))
    ensures forall w | w in Reached(runs, RawLanded) :: HasBlock(s.chain, w) && w.start < w.end
  {
    hide StrictlyIncreasing, Landable;
  }

  lemma PossibleFront(s: Setup, runs: seq<Run>)
    requires StrictlyIncreasing(s.chain) && Possible(s, runs) && runs != []
    ensures Possible(s, runs[..|runs| - 1])
  {
    hide StrictlyIncreasing, Landable, Disjoint;
  }

  /**
   Raw and silver after any history: unique keys, and exactly the facts and transfers of the windows that some
   run took that far. Order, retries and failed runs leave no other trace.
   */
  lemma {:induction false} RawAndSilverClosedForm(s: Setup, runs: seq<Run>)
    requires SoundChain(s.chain) && Possible(s, runs)
    ensures D.UniqueKeys(Play(s, runs).raw) && Incremental.UniqueKeys(Play(s, runs).silver)
    ensures D.Facts(Play(s, runs).raw) == AllFacts(s, Reached(runs, RawLanded))
    ensures Contents(Play(s, runs).silver) == AllTransfers(s, Reached(runs, SilverBuilt))
  {
    hide D.UniqueKeys, Incremental.UniqueKeys, D.Facts, Contents, AllFacts, AllTransfers, Reached, Possible,
         D.InsertRows, DeleteInsert, SilverQuery, GoldQuery, WindowRows, StrictlyIncreasing, HonestLogs, OneBlockPerKey,
         GoodWindows, WindowFacts;
    if runs == [] {
      NothingPlayed(s);
    } else {
      var front, r := runs[..|runs| - 1], runs[|runs| - 1];
      assert runs == front + [r];
      PossibleFront(s, runs);
      RawAndSilverClosedForm(s, front);
      ReachedAdd(front, r, RawLanded);
      ReachedAdd(front, r, SilverBuilt);
      ReachedIsGood(s, runs);
      ReachedNested(front);
      if r.stage != Aborted {
        var t := Play(s, front);
        var raw := D.InsertRows(t.raw, WindowRows(s, r.window, r.ingestedAt));
        RawStep(s, t.raw, Reached(front, RawLanded), r.window, r.ingestedAt);
        D.InsertKeepsUnique(t.raw, WindowRows(s, r.window, r.ingestedAt));
        if r.stage.Rank() >= 2 {
          SilverStep(s, raw, t.silver, Reached(runs, RawLanded), Reached(front, SilverBuilt), r.window);
          SilverKeysUnique(s.cfg, raw, r.window);
          DeleteInsertUnique(t.silver, SilverQuery(s.cfg, raw, r.window));
        }
      }
    }
  }

  lemma NothingPlayed(s: Setup)
    requires StrictlyIncreasing(s.chain)
    ensures D.UniqueKeys([]) && D.Facts([]) == AllFacts(s, Reached([], RawLanded))
    ensures Incremental.UniqueKeys<LogKey, Transfer>([]) && Incremental.UniqueKeys<FlowKey, Flow>([])
    ensures Contents<LogKey, Transfer>([]) == AllTransfers(s, Reached([], SilverBuilt))
    ensures Contents<FlowKey, Flow>([]) == AllFlows(s, Reached([], GoldBuilt))
  {
    hide WindowFacts, WindowTransfers, WindowFlows, StrictlyIncreasing;
  }

  /** Gold after any history whose finished windows share no clock hour: exactly the flows of those windows. */
  lemma {:induction false} GoldClosedForm(s: Setup, runs: seq<Run>)
    requires SoundChain(s.chain) && Possible(s, runs) && HoursApart(Reached(runs, GoldBuilt))
    ensures Incremental.UniqueKeys(Play(s, runs).gold)
    ensures Contents(Play(s, runs).gold) == AllFlows(s, Reached(runs, GoldBuilt))
  {
    hide D.UniqueKeys, Incremental.UniqueKeys, D.Facts, Contents, AllFacts, AllTransfers, AllFlows, Reached, Possible,
         D.InsertRows, DeleteInsert, SilverQuery, GoldQuery, WindowRows, StrictlyIncreasing, HonestLogs, OneBlockPerKey,
         GoodWindows, HoursApart;
    if runs == [] {
      NothingPlayed(s);
    } else {
      var front, r := runs[..|runs| - 1], runs[|runs| - 1];
      assert runs == front + [r];
      PossibleFront(s, runs);
      ReachedAdd(front, r, GoldBuilt);
      HoursApartSubset(Reached(front, GoldBuilt), Reached(runs, GoldBuilt));
      GoldClosedForm(s, front);
      if r.stage == GoldBuilt {
        RawAndSilverClosedForm(s, runs);
        ReachedIsGood(s, runs);
        ReachedNested(runs);
        GoodSubset(s, Reached(runs, SilverBuilt), Reached(runs, RawLanded));
        ReachedAdd(front, r, SilverBuilt);
        GoldStep(s, Play(s, runs).silver, Play(s, front).gold, Reached(runs, SilverBuilt), Reached(front, GoldBuilt),
                 r.window, r.updatedAt);
        GoldQueryMeans(s.cfg, Play(s, runs).silver, r.window, r.updatedAt);
        DeleteInsertUnique(Play(s, front).gold, GoldQuery(s.cfg, Play(s, runs).silver, r.window, r.updatedAt));
      }
    }
  }

  lemma HoursApartSubset(a: set<Window>, b: set<Window>)
    requires HoursApart(b)
    ensures a <= b ==> HoursApart(a)
  {
    hide HourApart;
  }

  lemma GoodSubset(s: Setup, a: set<Window>, b: set<Window>)
    requires StrictlyIncreasing(s.chain) && GoodWindows(s, b) && a <= b
    ensures GoodWindows(s, a)
  {
    hide StrictlyIncreasing, Landable, Disjoint;
  }

  /** Disjoint windows that start and end on the hour are enough. */
  lemma AlignedIsEnough(s: Setup, runs: seq<Run>)
    requires StrictlyIncreasing(s.chain) && Possible(s, runs)
    requires forall r | r in runs && r.stage != Aborted :: HourAligned(r.window)
    ensures HoursApart(Reached(runs, GoldBuilt))
  {
    hide StrictlyIncreasing, Landable, HourApart, HourAligned, Disjoint;
    forall v, w | v in Reached(runs, GoldBuilt) && w in Reached(runs, GoldBuilt) && v != w ensures HourApart(v, w) {
      AlignedWindowsAreHourApart(v, w);
    }
  }

  /** Two histories that took the same windows as far leave the same contents, whatever else happened. */
  lemma HistoriesAgree(s: Setup, a: seq<Run>, b: seq<Run>)
    requires SoundChain(s.chain) && Possible(s, a) && Possible(s, b)
    requires forall stage | stage != Aborted :: Reached(a, stage) == Reached(b, stage)
    requires HoursApart(Reached(a, GoldBuilt))
    ensures D.Facts(Play(s, a).raw) == D.Facts(Play(s, b).raw)
    ensures Contents(Play(s, a).silver) == Contents(Play(s, b).silver)
    ensures Contents(Play(s, a).gold) == Contents(Play(s, b).gold)
  {
    hide *;
    SoundMeans(s.chain);
    StagesAgree(a, b);
    RawAndSilverClosedForm(s, a);
    RawAndSilverClosedForm(s, b);
    GoldClosedForm(s, a);
    GoldClosedForm(s, b);
  }

  lemma SoundMeans(chain: Chain)
    ensures SoundChain(chain) ==> StrictlyIncreasing(chain)
  {
  }

  lemma StagesAgree(a: seq<Run>, b: seq<Run>)
    requires forall stage | stage != Aborted :: Reached(a, stage) == Reached(b, stage)
    ensures Reached(a, RawLanded) == Reached(b, RawLanded)
    ensures Reached(a, SilverBuilt) == Reached(b, SilverBuilt)
    ensures Reached(a, GoldBuilt) == Reached(b, GoldBuilt)
  {
  }

  /** Without any assumption on windows or chain, the raw keys are those of all windows ever landed. */
  lemma {:induction false} RawKeysOfAnyHistory(s: Setup, runs: seq<Run>, key: LogKey)
    requires StrictlyIncreasing(s.chain)
    ensures key in D.Keys(Play(s, runs).raw) <==>
      exists r :: r in runs && r.stage != Aborted && key in D.Keys(WindowRows(s, r.window, r.ingestedAt))
    ensures D.UniqueKeys(Play(s, runs).raw)
  {
    hide D.UniqueKeys, D.Keys, D.InsertRows, DeleteInsert, SilverQuery, GoldQuery, WindowRows, StrictlyIncreasing,
         D.Facts;
    if runs == [] {
      D.NoKeys();
      D.EmptyIsUnique();
    } else {
      var front, r := runs[..|runs| - 1], runs[|runs| - 1];
      assert forall q :: q in runs <==> q in front || q == r;
      RawKeysOfAnyHistory(s, front, key);
      D.InsertExtends(Play(s, front).raw, WindowRows(s, r.window, r.ingestedAt));
      D.InsertKeepsUnique(Play(s, front).raw, WindowRows(s, r.window, r.ingestedAt));
    }
  }
}
