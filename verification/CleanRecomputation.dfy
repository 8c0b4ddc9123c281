/** What the closed form of a history means: convergence, recomputation, conservation, and where gold needs hours. */
module CleanRecomputation {
  import opened Wrappers
  import opened Chain
  import opened Text
  import opened Uint256
  import opened LogNormalizer
  import opened Incremental
  import opened Silver
  import opened Gold
  import opened DbtTests
  import opened Pipeline
  import opened Convergence
  import D = DeltaWriter
  import Q = QualitySummary
  import T = TestHistories

  // --- Convergence to one clean run ---

  lemma AllOfOne(s: Setup, w: Window)
    requires StrictlyIncreasing(s.chain)
    ensures AllFacts(s, {w}) == WindowFacts(s, w)
    ensures AllTransfers(s, {w}) == WindowTransfers(s, w)
    ensures AllFlows(s, {w}) == WindowFlows(s, w)
  {
    hide StrictlyIncreasing, WindowFacts, WindowTransfers, WindowFlows;
  }

  /** One successful run on empty tables. */
  ghost function CleanRun(s: Setup, w: Window, ingestedAt: int, updatedAt: int): Tables
    requires StrictlyIncreasing(s.chain)
  {
    Play(s, [Run(w, GoldBuilt, ingestedAt, updatedAt)])
  }

  lemma CleanRunMeans(s: Setup, w: Window, ingestedAt: int, updatedAt: int)
    requires SoundChain(s.chain) && Landable(s, w) && HasBlock(s.chain, w)
    ensures var c := CleanRun(s, w, ingestedAt, updatedAt);
      && D.Facts(c.raw) == WindowFacts(s, w)
      && Contents(c.silver) == WindowTransfers(s, w)
      && Contents(c.gold) == WindowFlows(s, w)
  {
    hide StrictlyIncreasing, HonestLogs, OneBlockPerKey, Landable, WindowFacts, WindowTransfers, WindowFlows, D.Facts,
         Contents, Play, AllFacts, AllTransfers, AllFlows;
    var runs := [Run(w, GoldBuilt, ingestedAt, updatedAt)];
    assert runs[0] in runs;
    assert forall stage :: stage != Aborted ==> Reached(runs, stage) == {w};
    AllOfOne(s, w);
    RawAndSilverClosedForm(s, runs);
    GoldClosedForm(s, runs);
  }

  /** The facts of a set of windows that lie in one of them are that window's. */
  lemma FactsSlice(s: Setup, ws: set<Window>, w: Window)
    requires SoundChain(s.chain) && GoodWindows(s, ws) && w in ws
    ensures (set f | f in AllFacts(s, ws) && InWindow(f.blockTimestamp, w)) == WindowFacts(s, w)
  {
    hide WindowFacts, Landable, StrictlyIncreasing, HonestLogs, OneBlockPerKey;
    forall f | f in AllFacts(s, ws) && InWindow(f.blockTimestamp, w) ensures f in WindowFacts(s, w) {
      var v :| v in ws && f in WindowFacts(s, v);
      var b, l := FactInWindow(s, v, f);
    }
    forall f | f in WindowFacts(s, w) ensures InWindow(f.blockTimestamp, w) {
      var b, l := FactInWindow(s, w, f);
    }
    assert WindowFacts(s, w) <= AllFacts(s, ws);
  }

  /** A flow is stored with the start of its window. */
  lemma FlowStart(s: Setup, w: Window, x: (FlowKey, Flow))
    requires SoundChain(s.chain) && x in WindowFlows(s, w)
    ensures x.1.sourceIntervalStart == w.start
  {
    hide WindowTransfers, StrictlyIncreasing, HonestLogs, OneBlockPerKey, FlowKeyOf, Fold;
    var items := CountedItems(s.cfg, WindowTransfers(s, w));
    var group := Group(s.cfg, items, x.0);
    var y :| y in items && FlowKeyOf(s.cfg, y) == x.0;
    assert y in group;
    FoldMeans(group);
    var z :| z in group && Fold(group).sourceIntervalStart == z.1.intervalStart;
    TransferInWindow(s, w, z);
  }

  lemma FlowsSlice(s: Setup, ws: set<Window>, w: Window)
    requires SoundChain(s.chain) && GoodWindows(s, ws) && w in ws && forall v | v in ws :: v.start < v.end
    ensures (set x | x in AllFlows(s, ws) && InWindow(x.1.sourceIntervalStart, w)) == WindowFlows(s, w)
  {
    hide WindowFlows, Landable, StrictlyIncreasing, HonestLogs, OneBlockPerKey;
    forall x | x in AllFlows(s, ws) && InWindow(x.1.sourceIntervalStart, w) ensures x in WindowFlows(s, w) {
      var v :| v in ws && x in WindowFlows(s, v);
      FlowStart(s, v, x);
    }
    forall x | x in WindowFlows(s, w) ensures InWindow(x.1.sourceIntervalStart, w) {
      FlowStart(s, w, x);
    }
    assert WindowFlows(s, w) <= AllFlows(s, ws);
  }

  /**
   Once a window has been finished by any run, its part of the three tables equals what one clean run on empty
   tables leaves, whatever the other runs were, failed or not, before or after.
   */
  lemma ConvergesToCleanRun(s: Setup, runs: seq<Run>, w: Window, ingestedAt: int, updatedAt: int)
    requires SoundChain(s.chain) && Possible(s, runs) && HoursApart(Reached(runs, GoldBuilt))
    requires w in Reached(runs, GoldBuilt)
    ensures var t, c := Play(s, runs), CleanRun(s, w, ingestedAt, updatedAt);
      && (set f | f in D.Facts(t.raw) && InWindow(f.blockTimestamp, w)) == D.Facts(c.raw)
      && WindowItems(Contents(t.silver), w) == Contents(c.silver)
      && (set x | x in Contents(t.gold) && InWindow(x.1.sourceIntervalStart, w)) == Contents(c.gold)
  {
    hide StrictlyIncreasing, HonestLogs, OneBlockPerKey, Landable, Possible, HoursApart, Play, CleanRun, D.Facts,
         Contents,
         AllFacts, AllTransfers, AllFlows, WindowFacts, WindowTransfers, WindowFlows, WindowItems, Reached, GoodWindows;
    RawAndSilverClosedForm(s, runs);
    GoldClosedForm(s, runs);
    ReachedIsGood(s, runs);
    ReachedNested(runs);
    GoodSubset(s, Reached(runs, SilverBuilt), Reached(runs, RawLanded));
    GoodSubset(s, Reached(runs, GoldBuilt), Reached(runs, RawLanded));
    LandableOf(s, Reached(runs, RawLanded), w);
    CleanRunMeans(s, w, ingestedAt, updatedAt);
    FactsSlice(s, Reached(runs, RawLanded), w);
    TransfersOfWindow(s, Reached(runs, SilverBuilt), w);
    FlowsSlice(s, Reached(runs, GoldBuilt), w);
  }

  lemma LandableOf(s: Setup, ws: set<Window>, w: Window)
    requires StrictlyIncreasing(s.chain) && GoodWindows(s, ws) && w in ws
    ensures Landable(s, w)
  {
  }

  /** A run that fails before the raw commit is as if it had never been, whatever comes after it. */
  lemma {:induction false} EarlyFailuresLeaveNoTrace(s: Setup, a: seq<Run>, r: Run, b: seq<Run>)
    requires StrictlyIncreasing(s.chain) && r.stage == Aborted
    ensures Play(s, a + [r] + b) == Play(s, a + b)
  {
    hide Effect, StrictlyIncreasing;
    if b == [] {
      assert a + [r] + b == a + [r] && a + b == a;
      assert (a + [r])[..|a|] == a;
      NoEffect(s, Play(s, a), r.window, r.ingestedAt, r.updatedAt);
    } else {
      var front, last := b[..|b| - 1], b[|b| - 1];
      assert (a + [r] + b)[..|a + [r] + b| - 1] == a + [r] + front;
      assert (a + b)[..|a + b| - 1] == a + front;
      EarlyFailuresLeaveNoTrace(s, a, r, front);
    }
  }

  // --- Incremental building is full recomputation ---

  lemma TransfersOfFacts(s: Setup, ws: set<Window>)
    requires SoundChain(s.chain)
    ensures AllTransfers(s, ws) == FullTransfers(s.cfg, AllFacts(s, ws))
  {
    hide WindowFacts, StrictlyIncreasing, HonestLogs, OneBlockPerKey, DecodeTransfer;
    forall x | x in FullTransfers(s.cfg, AllFacts(s, ws)) ensures x in AllTransfers(s, ws) {
      var f :| f in AllFacts(s, ws) && DecodeTransfer(s.cfg, f).Some? && x == (f.Key(), DecodeTransfer(s.cfg, f).value);
      var w :| w in ws && f in WindowFacts(s, w);
      var b, l := FactInWindow(s, w, f);
      assert x in WindowTransfers(s, w);
    }
    forall x | x in AllTransfers(s, ws) ensures x in FullTransfers(s.cfg, AllFacts(s, ws)) {
      var w :| w in ws && x in WindowTransfers(s, w);
      var f :| f in WindowFacts(s, w) && DecodeTransfer(s.cfg, f).Some?
        && x == (f.Key(), DecodeTransfer(s.cfg, f).value);
      assert f in AllFacts(s, ws);
    }
  }

  /** Aggregating window by window is aggregating all at once. */
  lemma {:induction false} FlowsOfTransfers(s: Setup, ws: set<Window>)
    requires SoundChain(s.chain) && HoursApart(ws)
    ensures AllFlows(s, ws) == Flows(s.cfg, CountedItems(s.cfg, AllTransfers(s, ws)))
    decreases |ws|
  {
    hide WindowTransfers, StrictlyIncreasing, HonestLogs, OneBlockPerKey, GroupKeys, FlowOf, HourApart, Counted;
    if ws == {} {
      NoGroups(s.cfg);
      assert CountedItems(s.cfg, AllTransfers(s, ws)) == {};
    } else {
      var w :| w in ws;
      var rest := ws - {w};
      assert ws == rest + {w};
      FlowsOfTransfers(s, rest);
      AllFactsAdd(s, rest, w);
      var a, b := CountedItems(s.cfg, AllTransfers(s, rest)), CountedItems(s.cfg, WindowTransfers(s, w));
      assert CountedItems(s.cfg, AllTransfers(s, ws)) == a + b;
      GroupsOfRest(s, rest, w);
      FlowsUnion(s.cfg, a, b);
    }
  }

  lemma GroupsOfRest(s: Setup, rest: set<Window>, w: Window)
    requires SoundChain(s.chain) && HoursApart(rest + {w}) && w !in rest
    ensures GroupKeys(s.cfg, CountedItems(s.cfg, AllTransfers(s, rest)))
         !! GroupKeys(s.cfg, CountedItems(s.cfg, WindowTransfers(s, w)))
  {
    hide WindowTransfers, StrictlyIncreasing, HonestLogs, OneBlockPerKey, HourApart, Counted, FlowKeyOf;
    forall k | k in GroupKeys(s.cfg, CountedItems(s.cfg, AllTransfers(s, rest)))
      ensures k !in GroupKeys(s.cfg, CountedItems(s.cfg, WindowTransfers(s, w)))
    {
      var x :| x in CountedItems(s.cfg, AllTransfers(s, rest)) && FlowKeyOf(s.cfg, x) == k;
      var v :| v in rest && x in WindowTransfers(s, v);
      assert v in rest + {w} && w in rest + {w};
      WindowGroupsApart(s, v, w);
      assert x in CountedItems(s.cfg, WindowTransfers(s, v));
    }
  }

  /** Facts, transfers and flows that lie in some of the windows are those windows' own. */
  lemma FactsOfSome(s: Setup, ws: set<Window>, some: set<Window>)
    requires SoundChain(s.chain) && GoodWindows(s, ws) && some <= ws
    ensures (set f | f in AllFacts(s, ws) && InSome(f.blockTimestamp, some)) == AllFacts(s, some)
  {
    hide WindowFacts, Landable, StrictlyIncreasing, HonestLogs, OneBlockPerKey;
    forall f | f in AllFacts(s, ws) && InSome(f.blockTimestamp, some) ensures f in AllFacts(s, some) {
      var v :| v in ws && f in WindowFacts(s, v);
      var w :| w in some && InWindow(f.blockTimestamp, w);
      var b, l := FactInWindow(s, v, f);
    }
    forall f | f in AllFacts(s, some) ensures f in AllFacts(s, ws) && InSome(f.blockTimestamp, some) {
      var w :| w in some && f in WindowFacts(s, w);
      var b, l := FactInWindow(s, w, f);
    }
  }

  lemma TransfersOfSome(s: Setup, ws: set<Window>, some: set<Window>)
    requires SoundChain(s.chain) && GoodWindows(s, ws) && some <= ws
    ensures (set x | x in AllTransfers(s, ws) && InSome(x.1.blockTimestamp, some)) == AllTransfers(s, some)
  {
    hide WindowTransfers, Landable, StrictlyIncreasing, HonestLogs, OneBlockPerKey;
    forall x | x in AllTransfers(s, ws) && InSome(x.1.blockTimestamp, some) ensures x in AllTransfers(s, some) {
      var v :| v in ws && x in WindowTransfers(s, v);
      var w :| w in some && InWindow(x.1.blockTimestamp, w);
      TransferInWindow(s, v, x);
    }
    forall x | x in AllTransfers(s, some) ensures x in AllTransfers(s, ws) && InSome(x.1.blockTimestamp, some) {
      var w :| w in some && x in WindowTransfers(s, w);
      TransferInWindow(s, w, x);
    }
  }

  lemma FlowsOfSome(s: Setup, ws: set<Window>, some: set<Window>)
    requires SoundChain(s.chain) && GoodWindows(s, ws) && some <= ws && forall w | w in ws :: w.start < w.end
    ensures (set x | x in AllFlows(s, ws) && InSome(x.1.sourceIntervalStart, some)) == AllFlows(s, some)
  {
    hide WindowFlows, Landable, StrictlyIncreasing, HonestLogs, OneBlockPerKey;
    forall x | x in AllFlows(s, ws) && InSome(x.1.sourceIntervalStart, some) ensures x in AllFlows(s, some) {
      var v :| v in ws && x in WindowFlows(s, v);
      var w :| w in some && InWindow(x.1.sourceIntervalStart, w);
      FlowStart(s, v, x);
    }
    forall x | x in AllFlows(s, some) ensures x in AllFlows(s, ws) && InSome(x.1.sourceIntervalStart, some) {
      var w :| w in some && x in WindowFlows(s, w);
      FlowStart(s, w, x);
      assert InWindow(x.1.sourceIntervalStart, w);
    }
  }

  /**
   At any time silver is what its query gives over all raw rows of the windows that were built, and gold what its
   query gives over all silver rows of the windows that were finished, each at once and without any window.
   */
  lemma IncrementalIsFullRecompute(s: Setup, runs: seq<Run>)
    requires SoundChain(s.chain) && Possible(s, runs) && HoursApart(Reached(runs, GoldBuilt))
    ensures var t := Play(s, runs);
      var facts := set f | f in D.Facts(t.raw) && InSome(f.blockTimestamp, Reached(runs, SilverBuilt));
      var items := set x | x in Contents(t.silver) && InSome(x.1.blockTimestamp, Reached(runs, GoldBuilt));
      && Contents(t.silver) == FullTransfers(s.cfg, facts)
      && Contents(t.gold) == Flows(s.cfg, CountedItems(s.cfg, items))
  {
    hide *;
    SoundMeans(s.chain);
    RawAndSilverClosedForm(s, runs);
    GoldClosedForm(s, runs);
    ReachedIsGood(s, runs);
    ReachedNested(runs);
    GoodSubset(s, Reached(runs, SilverBuilt), Reached(runs, RawLanded));
    FactsOfSome(s, Reached(runs, RawLanded), Reached(runs, SilverBuilt));
    TransfersOfSome(s, Reached(runs, SilverBuilt), Reached(runs, GoldBuilt));
    TransfersOfFacts(s, Reached(runs, SilverBuilt));
    FlowsOfTransfers(s, Reached(runs, GoldBuilt));
  }

  ghost predicate Covers(u: Window, ws: set<Window>) {
    forall w | w in ws :: u.start <= w.start && w.end <= u.end
  }

  /** Over a window that covers them all, the silver query sees every transfer of the landed windows. */
  lemma CoveringTransfers(s: Setup, ws: set<Window>, u: Window)
    requires SoundChain(s.chain) && Covers(u, ws)
    ensures Transfers(s.cfg, AllFacts(s, ws), u) == AllTransfers(s, ws)
    ensures WindowItems(AllTransfers(s, ws), u) == AllTransfers(s, ws)
  {
    hide WindowFacts, WindowTransfers, StrictlyIncreasing, HonestLogs, OneBlockPerKey, DecodeTransfer;
    TransfersOfFacts(s, ws);
    forall f | f in AllFacts(s, ws) ensures InWindow(f.blockTimestamp, u) {
      var w :| w in ws && f in WindowFacts(s, w);
      var b, l := FactInWindow(s, w, f);
    }
    forall x | x in AllTransfers(s, ws) ensures InWindow(x.1.blockTimestamp, u) {
      var w :| w in ws && x in WindowTransfers(s, w);
      TransferInWindow(s, w, x);
    }
  }

  /**
   The two models run once, over one window that covers everything that has landed, contain what the incremental
   tables hold: silver is the part of it that belongs to built windows, gold the part that belongs to finished ones.
   */
  lemma IncrementalIsPartOfOneQuery(s: Setup, runs: seq<Run>, u: Window, updatedAt: int)
    requires SoundChain(s.chain) && Possible(s, runs) && HoursApart(Reached(runs, SilverBuilt))
    requires Covers(u, Reached(runs, RawLanded))
    ensures var t := Play(s, runs);
      && Contents(t.silver)
         == (set x | x in Contents(SilverQuery(s.cfg, t.raw, u))
                     && InSome(x.1.blockTimestamp, Reached(runs, SilverBuilt)))
      && Contents(t.gold)
         == (set x | x in Contents(GoldQuery(s.cfg, t.silver, u, updatedAt))
                     && InSome(x.1.sourceIntervalStart, Reached(runs, GoldBuilt)))
  {
    hide *;
    SoundMeans(s.chain);
    var landed, built, done := Reached(runs, RawLanded), Reached(runs, SilverBuilt), Reached(runs, GoldBuilt);
    ReachedIsGood(s, runs);
    ReachedNested(runs);
    HoursApartSubset(done, built);
    RawAndSilverClosedForm(s, runs);
    GoldClosedForm(s, runs);
    GoodSubset(s, built, landed);
    CoversSubset(u, built, landed);
    AllFactsFunctional(s, landed);
    SilverQueryMeans(s.cfg, Play(s, runs).raw, u);
    CoveringTransfers(s, landed, u);
    TransfersOfSome(s, landed, built);
    GoldQueryMeans(s.cfg, Play(s, runs).silver, u, updatedAt);
    CoveringTransfers(s, built, u);
    FlowsOfTransfers(s, built);
    FlowsOfSome(s, built, done);
  }

  lemma CoversSubset(u: Window, some: set<Window>, ws: set<Window>)
    requires Covers(u, ws) && some <= ws
    ensures Covers(u, some)
  {
  }

  /** When every landed window has been finished, the tables are just what the two models give over such a window. */
  lemma FinishedIsOneQuery(s: Setup, runs: seq<Run>, u: Window, updatedAt: int)
    requires SoundChain(s.chain) && Possible(s, runs) && HoursApart(Reached(runs, GoldBuilt))
    requires Reached(runs, RawLanded) == Reached(runs, GoldBuilt) && Covers(u, Reached(runs, RawLanded))
    ensures var t := Play(s, runs);
      && Contents(t.silver) == Contents(SilverQuery(s.cfg, t.raw, u))
      && Contents(t.gold) == Contents(GoldQuery(s.cfg, t.silver, u, updatedAt))
  {
    hide *;
    SoundMeans(s.chain);
    var landed := Reached(runs, RawLanded);
    ReachedNested(runs);
    assert Reached(runs, SilverBuilt) == landed;
    ReachedIsGood(s, runs);
    RawAndSilverClosedForm(s, runs);
    GoldClosedForm(s, runs);
    AllFactsFunctional(s, landed);
    SilverQueryMeans(s.cfg, Play(s, runs).raw, u);
    GoldQueryMeans(s.cfg, Play(s, runs).silver, u, updatedAt);
    CoveringTransfers(s, landed, u);
    FlowsOfTransfers(s, landed);
  }

  // --- Conservation of the summary's totals ---

  lemma {:induction false} WindowFlowRows(gold: seq<FlowRow>, w: Window)
    ensures Contents(Q.WindowFlows(gold, w)) == set x | x in Contents(gold) && InWindow(x.1.sourceIntervalStart, w)
    ensures KeysOf(Q.WindowFlows(gold, w)) <= KeysOf(gold)
    ensures Incremental.UniqueKeys(gold) ==> Incremental.UniqueKeys(Q.WindowFlows(gold, w))
  {
    hide Contents, KeysOf, Incremental.UniqueKeys;
    if gold == [] {
      RowsNone<FlowKey, Flow>();
      NoRowsUnique<FlowKey, Flow>();
    } else {
      var front, row := gold[..|gold| - 1], gold[|gold| - 1];
      assert gold == front + [row];
      WindowFlowRows(front, w);
      RowsAppend(front, [row]);
      RowsAppend(Q.WindowFlows(front, w), [row]);
      RowsOne(row);
      Incremental.UniqueAppend(front, row);
      Incremental.UniqueAppend(Q.WindowFlows(front, w), row);
    }
  }

  lemma TalliedByContents(cfg: Config, rows: seq<FlowRow>, items: set<Item>)
    requires Incremental.UniqueKeys(rows) && Contents(rows) == Flows(cfg, items)
    ensures Tallied(cfg, rows, items)
  {
    hide GroupKeys, FlowOf;
    forall r | r in rows ensures r.key in GroupKeys(cfg, items) && r.columns == FlowOf(cfg, items, r.key) {
      assert (r.key, r.columns) in Contents(rows);
    }
    forall k | k in GroupKeys(cfg, items) ensures k in KeysOf(rows) {
      assert (k, FlowOf(cfg, items, k)) in Contents(rows);
      KeysAreContents(rows);
    }
  }

  /** The counted transfers of a window, as they are stored in silver. */
  ghost function TreasuryItems(s: Setup, t: Tables, w: Window): set<Item> {
    CountedItems(s.cfg, WindowItems(Contents(t.silver), w))
  }

  /**
   For a finished window the summary's counts and sums are those of the stored transfers of the window that
   touch the treasury.
   */
  lemma SummaryIsConserved(s: Setup, runs: seq<Run>, w: Window)
    requires SoundChain(s.chain) && Possible(s, runs) && HoursApart(Reached(runs, GoldBuilt))
    requires w in Reached(runs, GoldBuilt)
    ensures Q.Conserves(s.cfg, Q.Summarize(Play(s, runs).gold, w), TreasuryItems(s, Play(s, runs), w))
  {
    hide StrictlyIncreasing, HonestLogs, OneBlockPerKey, Landable, Possible, HoursApart, Play, Contents, AllFacts,
         D.Facts, AllTransfers, AllFlows, WindowFacts, WindowTransfers, WindowItems, Reached, GoodWindows, Flows,
         CountedItems, Tallied, Q.WindowFlows, Q.Conserves, Q.Summarize, Incremental.UniqueKeys, KeysOf;
    RawAndSilverClosedForm(s, runs);
    GoldClosedForm(s, runs);
    ReachedIsGood(s, runs);
    ReachedNested(runs);
    GoodSubset(s, Reached(runs, SilverBuilt), Reached(runs, RawLanded));
    GoodSubset(s, Reached(runs, GoldBuilt), Reached(runs, RawLanded));
    TransfersOfWindow(s, Reached(runs, SilverBuilt), w);
    FlowsSlice(s, Reached(runs, GoldBuilt), w);
    var t := Play(s, runs);
    WindowFlowRows(t.gold, w);
    TalliedByContents(s.cfg, Q.WindowFlows(t.gold, w), TreasuryItems(s, t, w));
    Q.TallyConserves(s.cfg, t.gold, w, TreasuryItems(s, t, w));
  }

  /** The USDT totals are the raw totals: moving the decimal point loses nothing in any sum. */
  lemma {:induction false} SumsAgree(items: set<Item>)
    requires forall x | x in items :: x.1.amountUsdt == x.1.rawAmount
    ensures Sum(items, UsdtAmount) == Sum(items, RawAmount)
    decreases |items|
  {
    if items == {} {
    } else {
      var x :| x in items;
      SumAny(items, RawAmount, x);
      SumAny(items, UsdtAmount, x);
      SumsAgree(items - {x});
    }
  }

  /** Every landed fact matches its own data word, which is kept in lower case. */
  lemma LandedFactsMatch(s: Setup, w: Window, f: LogFact)
    requires SoundChain(s.chain) && f in WindowFacts(s, w)
    ensures Normalized(f)
  {
    hide StrictlyIncreasing, HonestLogs, OneBlockPerKey, WindowFacts, FactOnChain, Normalized;
    var b, l := FactInWindow(s, w, f);
    T.FactOnChainIsSound(s, l, w);
  }

  /**
   A landed transfer of the token has no amount if and only if its text has more than 38 digits; otherwise both
   amounts are the value of its data word.
   */
  lemma OnlyWideAmountsAreMissing(s: Setup, w: Window, x: Item)
    requires SoundChain(s.chain) && x in WindowTransfers(s, w) && x.1.contractAddress == Lower(s.cfg.usdtContract)
    ensures IsUint256Word(x.1.dataRaw) && x.1.amountUsdt == x.1.rawAmount
    ensures x.1.rawAmountText.Some?
    ensures x.1.rawAmount
         == if |x.1.rawAmountText.value| > 38 then None else Some(HexValue(x.1.dataRaw[2..]))
  {
    hide StrictlyIncreasing, HonestLogs, OneBlockPerKey, WindowFacts, DecodeTransfer, Normalized, IsUint256Word,
         HexValue;
    TransferInWindow(s, w, x);
    var f :| f in WindowFacts(s, w) && DecodeTransfer(s.cfg, f) == Some(x.1) && f.Key() == x.0;
    LandedFactsMatch(s, w, f);
    NormalizedMatches(f);
    AmountsAreExact(s.cfg, f);
    TransferColumns(s.cfg, f);
    TransferText(s.cfg, f);
  }

  lemma NormalizedMatches(f: LogFact)
    ensures Normalized(f) ==> D.MatchesItsData(f)
  {
  }

  /** So the summary's USDT totals are its raw totals. */
  lemma UsdtTotalsAreRawTotals(s: Setup, runs: seq<Run>, w: Window)
    requires SoundChain(s.chain) && Possible(s, runs) && HoursApart(Reached(runs, GoldBuilt))
    requires w in Reached(runs, GoldBuilt)
    ensures var summary := Q.Summarize(Play(s, runs).gold, w);
      summary.totalInflowUsdt == summary.totalInflowRaw && summary.totalOutflowUsdt == summary.totalOutflowRaw
  {
    hide StrictlyIncreasing, HonestLogs, OneBlockPerKey, Landable, Possible, HoursApart, Play, Contents, AllFacts,
         D.Facts,
         AllTransfers, AllFlows, WindowFacts, WindowTransfers, WindowItems, Reached, GoodWindows, Flows, Sum, GroupKeys,
         Q.Summarize, Incremental.UniqueKeys, DirectionOf;
    SummaryIsConserved(s, runs, w);
    RawAndSilverClosedForm(s, runs);
    ReachedIsGood(s, runs);
    ReachedNested(runs);
    GoodSubset(s, Reached(runs, SilverBuilt), Reached(runs, RawLanded));
    TransfersOfWindow(s, Reached(runs, SilverBuilt), w);
    var items := TreasuryItems(s, Play(s, runs), w);
    forall x | x in items ensures x.1.amountUsdt == x.1.rawAmount {
      OnlyWideAmountsAreMissing(s, w, x);
    }
    SumsAgree(Q.Directed(s.cfg, items, Inflow));
    SumsAgree(Q.Directed(s.cfg, items, Outflow));
  }

  /** The amount in the data column itself. */
  ghost function Word(x: Item): nat {
    if IsUint256Word(x.1.dataRaw) then HexValue(x.1.dataRaw[2..]) else 0
  }

  /** The plain sum of the data words of a set of transfers. */
  ghost function WordSum(items: set<Item>): nat {
    if items == {} then 0
    else
      var x :| x in items;
      Word(x) + WordSum(items - {x})
  }

  lemma {:induction false} WordsAddUp(items: set<Item>)
    requires forall x | x in items :: x.1.rawAmount == Some(Word(x))
    ensures Sum(items, RawAmount) == WordSum(items)
    decreases |items|
  {
    if items == {} {
    } else {
      var x :| x in items && WordSum(items) == Word(x) + WordSum(items - {x});
      SumAny(items, RawAmount, x);
      WordsAddUp(items - {x});
    }
  }

  lemma CountedHasAmount(cfg: Config, x: Item)
    requires Counted(cfg, x.1)
    ensures x.1.contractAddress == Lower(cfg.usdtContract) && x.1.rawAmount.Some?
  {
  }

  /**
   End to end: the summary's four totals are the sums of the data words, as they stand on the chain, of the window's
   transfers of the token to the treasury and from it.
   */
  lemma SummaryAddsUpTheWords(s: Setup, runs: seq<Run>, w: Window)
    requires SoundChain(s.chain) && Possible(s, runs) && HoursApart(Reached(runs, GoldBuilt))
    requires w in Reached(runs, GoldBuilt)
    ensures var summary, items := Q.Summarize(Play(s, runs).gold, w), TreasuryItems(s, Play(s, runs), w);
      && (forall x | x in items :: IsUint256Word(x.1.dataRaw))
      && summary.totalInflowRaw == summary.totalInflowUsdt == WordSum(Q.Directed(s.cfg, items, Inflow))
      && summary.totalOutflowRaw == summary.totalOutflowUsdt == WordSum(Q.Directed(s.cfg, items, Outflow))
  {
    hide StrictlyIncreasing, HonestLogs, OneBlockPerKey, Landable, Possible, HoursApart, Play, Contents, AllFacts,
         D.Facts, HexValue, IsUint256Word,
         AllTransfers, AllFlows, WindowFacts, WindowTransfers, WindowItems, Reached, GoodWindows, Flows, Sum, GroupKeys,
         Q.Summarize, Incremental.UniqueKeys, DirectionOf, Counted, WordSum;
    SummaryIsConserved(s, runs, w);
    UsdtTotalsAreRawTotals(s, runs, w);
    RawAndSilverClosedForm(s, runs);
    ReachedIsGood(s, runs);
    ReachedNested(runs);
    GoodSubset(s, Reached(runs, SilverBuilt), Reached(runs, RawLanded));
    TransfersOfWindow(s, Reached(runs, SilverBuilt), w);
    var items := TreasuryItems(s, Play(s, runs), w);
    forall x | x in items ensures IsUint256Word(x.1.dataRaw) && x.1.rawAmount == Some(Word(x)) {
      CountedHasAmount(s.cfg, x);
      OnlyWideAmountsAreMissing(s, w, x);
    }
    WordsAddUp(Q.Directed(s.cfg, items, Inflow));
    WordsAddUp(Q.Directed(s.cfg, items, Outflow));
  }
}
