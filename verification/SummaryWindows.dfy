/** Which windows the quality summary conserves, when windows may overlap: those that no landed window sticks out of. */
module SummaryWindows {
  import opened Wrappers
  import opened Chain
  import JsonRpc
  import opened Uint256
  import opened Text
  import opened LogNormalizer
  import opened Incremental
  import opened Silver
  import opened Gold
  import opened Pipeline
  import opened Convergence
  import opened CleanRecomputation
  import opened OverlappingWindows
  import opened OverlappingGold
  import opened Histories
  import opened Receipts
  import opened ReceiptHistories
  import opened HourSharing
  import D = DeltaWriter
  import T = TestHistories
  import Q = QualitySummary

  /** Of the finished instants of u, all lie in w when u starts in it, and none when it does not. */
  ghost predicate Whole(u: Window, w: Window, done: set<Window>) {
    forall t | InWindow(t, u) && InSome(t, done) :: InWindow(t, w) <==> InWindow(u.start, w)
  }

  /** The summary of the window counts and adds up just its stored treasury transfers. */
  ghost predicate SummaryConserved(s: Setup, runs: seq<Run>, w: Window)
    requires StrictlyIncreasing(s.chain)
  {
    Q.Conserves(s.cfg, Q.Summarize(Play(s, runs).gold, w), TreasuryItems(s, Play(s, runs), w))
  }

  ghost predicate SummaryIsExact(cfg: Config, chainId: int, landed: set<Window>, done: set<Window>, w: Window) {
    forall chain, runs |
      && SoundChain(chain) && Feasible(Setup(chain, chainId, cfg), runs)
      && Reached(runs, RawLanded) == landed && Reached(runs, GoldBuilt) == done ::
      SummaryConserved(Setup(chain, chainId, cfg), runs, w)
  }

  ghost predicate PerformedSummaryIsExact(cfg: Config, ws: set<Window>, w: Window) {
    forall chain, jobs, runs, results |
      && SoundChain(chain) && RunsOf(Setup(chain, 1, cfg), jobs, runs, results) && AllSucceed(results)
      && Reached(runs, GoldBuilt) == ws ::
      SummaryConserved(Setup(chain, 1, cfg), runs, w)
  }

  // --- Where no landed window sticks out, the summary is conserved ---

  /** A stored transfer carries the start of a landed window that it lies in. */
  lemma IntervalOfItem(s: Setup, runs: seq<Run>, x: Item) returns (u: Window)
    requires SoundChain(s.chain) && Feasible(s, runs) && x in Contents(Play(s, runs).silver)
    ensures u in Reached(runs, RawLanded) && InWindow(x.1.blockTimestamp, u) && x.1.intervalStart == u.start
  {
    hide StrictlyIncreasing, HonestLogs, OneBlockPerKey, Feasible, Contents, Play, RawCovers, WindowFacts, Reached,
         DecodeTransfer, KeysOf, D.UniqueKeys, AllTransfers;
    AnyHistoryCovers(s, runs);
    var f :| f in AllFacts(s, Reached(runs, RawLanded)) && DecodeTransfer(s.cfg, f).Some?
      && x == (f.Key(), DecodeTransfer(s.cfg, f).value);
    u :| u in Reached(runs, RawLanded) && f in WindowFacts(s, u);
    var b, l := FactInWindow(s, u, f);
    TransferColumns(s.cfg, f);
  }

  /** The group of a transfer of the window lies in the window as a whole. */
  lemma WholeGroup(cfg: Config, items: set<Item>, done: set<Window>, w: Window, k: FlowKey)
    requires AllHoursAgree(done) && w in done
    requires k in GroupKeys(cfg, CountedItems(cfg, WindowItems(items, w)))
    ensures Group(cfg, CountedItems(cfg, Region(items, done)), k)
         == Group(cfg, CountedItems(cfg, WindowItems(items, w)), k)
  {
    hide Counted, FlowKeyOf, HourOf;
    var x :| x in CountedItems(cfg, WindowItems(items, w)) && FlowKeyOf(cfg, x) == k;
    forall y | y in Region(items, done) && FlowKeyOf(cfg, y) == k ensures y in WindowItems(items, w) {
      SameGroupSameHour(cfg, x, y);
      var v :| v in done && InWindow(y.1.blockTimestamp, v);
      assert HoursAgree(v, w);
    }
  }

  /** The flows that carry a start in the window are those of the window's transfers. */
  lemma FlowsInWindow(cfg: Config, items: set<Item>, done: set<Window>, w: Window)
    requires AllHoursAgree(done) && w in done
    requires forall x | x in Region(items, done) ::
      InWindow(x.1.blockTimestamp, w) <==> InWindow(x.1.intervalStart, w)
    ensures (set c | c in Flows(cfg, CountedItems(cfg, Region(items, done))) && InWindow(c.1.sourceIntervalStart, w))
         == Flows(cfg, CountedItems(cfg, WindowItems(items, w)))
  {
    hide Counted, FlowKeyOf, AllHoursAgree, Fold;
    var a, b := CountedItems(cfg, Region(items, done)), CountedItems(cfg, WindowItems(items, w));
    forall k | k in GroupKeys(cfg, a)
      ensures InWindow(FlowOf(cfg, a, k).sourceIntervalStart, w) <==> k in GroupKeys(cfg, b)
      ensures k in GroupKeys(cfg, b) ==> FlowOf(cfg, a, k) == FlowOf(cfg, b, k)
    {
      var x :| x in a && FlowKeyOf(cfg, x) == k;
      assert x in Group(cfg, a, k);
      FoldMeans(Group(cfg, a, k));
      var z :| z in Group(cfg, a, k) && Fold(Group(cfg, a, k)).sourceIntervalStart == z.1.intervalStart;
      if k in GroupKeys(cfg, b) {
        WholeGroup(cfg, items, done, w, k);
        assert z in b;
      } else {
        assert z !in b;
      }
    }
    forall k | k in GroupKeys(cfg, b) ensures k in GroupKeys(cfg, a) {
      var x :| x in b && FlowKeyOf(cfg, x) == k;
      assert x in a;
    }
  }

  lemma ConservedByContents(cfg: Config, gold: seq<FlowRow>, w: Window, items: set<Item>)
    requires Incremental.UniqueKeys(gold)
    requires (set c | c in Contents(gold) && InWindow(c.1.sourceIntervalStart, w)) == Flows(cfg, items)
    ensures Q.Conserves(cfg, Q.Summarize(gold, w), items)
  {
    hide Incremental.UniqueKeys, Contents, Flows, Tallied, KeysOf, Q.WindowFlows, Q.Summarize, Q.Conserves;
    WindowFlowRows(gold, w);
    TalliedByContents(cfg, Q.WindowFlows(gold, w), items);
    Q.TallyConserves(cfg, gold, w, items);
  }

  lemma WholeWindowsConserve(s: Setup, runs: seq<Run>, w: Window)
    requires SoundChain(s.chain) && Feasible(s, runs) && AllHoursAgree(Reached(runs, GoldBuilt))
    requires w in Reached(runs, GoldBuilt)
    requires forall u | u in Reached(runs, RawLanded) :: Whole(u, w, Reached(runs, GoldBuilt))
    ensures SummaryConserved(s, runs, w)
  {
    hide StrictlyIncreasing, HonestLogs, OneBlockPerKey, Feasible, Play, Contents, Reached, AllHoursAgree, Flows,
         CountedItems, WindowItems, Q.Conserves, Q.Summarize, Incremental.UniqueKeys;
    var t, done := Play(s, runs), Reached(runs, GoldBuilt);
    forall x | x in Region(Contents(t.silver), done)
      ensures InWindow(x.1.blockTimestamp, w) <==> InWindow(x.1.intervalStart, w)
    {
      var u := IntervalOfItem(s, runs, x);
      assert Whole(u, w, done);
    }
    HoursAgreeRecomputes(s, runs);
    FlowsInWindow(s.cfg, Contents(t.silver), done, w);
    GoldIsUnique(s, runs);
    ConservedByContents(s.cfg, t.gold, w, TreasuryItems(s, t, w));
  }

  lemma {:induction false} GoldIsUnique(s: Setup, runs: seq<Run>)
    requires StrictlyIncreasing(s.chain)
    ensures Incremental.UniqueKeys(Play(s, runs).gold)
  {
    hide StrictlyIncreasing, WindowRows, D.InsertRows, SilverQuery, GoldQuery, DeleteInsert, Incremental.UniqueKeys;
    if runs == [] {
      NoRowsUnique<FlowKey, Flow>();
    } else {
      var front, r := runs[..|runs| - 1], runs[|runs| - 1];
      GoldIsUnique(s, front);
      if r.stage == GoldBuilt {
        assert runs == front + [r];
        LastRun(s, front, r);
        SilverIsUnique(s, runs);
        GoldQueryMeans(s.cfg, Play(s, runs).silver, r.window, r.updatedAt);
        DeleteInsertUnique(Play(s, front).gold, GoldQuery(s.cfg, Play(s, runs).silver, r.window, r.updatedAt));
      }
    }
  }

  lemma UncountableConserves(s: Setup, runs: seq<Run>, w: Window)
    requires StrictlyIncreasing(s.chain) && !Countable(s.cfg)
    ensures SummaryConserved(s, runs, w)
  {
    hide Countable, StrictlyIncreasing, Contents, Play, Flows, CountedItems, T.Derived, D.UniqueKeys, WindowItems,
         Incremental.UniqueKeys, D.Facts, Q.Conserves, Q.Summarize;
    GoldStaysEmpty(s, runs);
    GoldIsUnique(s, runs);
    T.TablesAreSound(s, runs);
    StillSound(s, Contents(Play(s, runs).silver), w);
    NothingCounted(s, WindowItems(Contents(Play(s, runs).silver), w));
    ConservedByContents(s.cfg, Play(s, runs).gold, w, TreasuryItems(s, Play(s, runs), w));
  }

  lemma StillSound(s: Setup, items: set<Item>, w: Window)
    requires T.SoundTransfers(s, items)
    ensures T.SoundTransfers(s, WindowItems(items, w))
  {
    hide T.Derived;
  }

  // --- Where one sticks out, a transfer is missed or counted for the wrong window ---

  /** What the first run lands stays in the raw table. */
  lemma {:induction false} FirstLandingStays(s: Setup, runs: seq<Run>, f: LogFact)
    requires StrictlyIncreasing(s.chain) && runs != [] && runs[0].stage != Aborted
    requires Landable(s, runs[0].window) && f in WindowFacts(s, runs[0].window)
    ensures f in D.Facts(Play(s, runs).raw)
  {
    hide StrictlyIncreasing, WindowRows, WindowFacts, D.InsertRows, D.Facts, D.Keys, D.KeyFunctional, SilverQuery,
         GoldQuery, DeleteInsert, Landable;
    var front, r := runs[..|runs| - 1], runs[|runs| - 1];
    assert runs == front + [r];
    RawOfNext(s, front, r);
    BatchFacts(s, r.window, r.ingestedAt);
    if front == [] {
      WindowFactsFunctional(s, r.window);
      D.NoKeys();
      assert {} + WindowFacts(s, r.window) == WindowFacts(s, r.window);
      D.InsertIsUnion([], WindowRows(s, r.window, r.ingestedAt));
    } else {
      FirstLandingStays(s, front, f);
      if r.stage != Aborted {
        D.InsertExtends(Play(s, front).raw, WindowRows(s, r.window, r.ingestedAt));
      }
    }
  }

  /** With one receipt in a built window and the other in none, silver holds the one, with its first interval. */
  lemma OneIsStored(s: Setup, p: Plan, runs: seq<Run>, u: Window, v: Window) returns (x: Item)
    requires HasReceipts(s, p) && SoundChain(s.chain) && IsNarrow(p.data) && Feasible(s, runs)
    requires runs != [] && runs[0].stage != Aborted && runs[0].window == u && InWindow(p.first, u)
    requires v in Reached(runs, SilverBuilt) && InWindow(p.first, v)
    requires forall w | w in Reached(runs, RawLanded) :: !InWindow(p.second, w)
    ensures Contents(Play(s, runs).silver) == {x} && Counted(s.cfg, x.1)
    ensures x.1.blockTimestamp == p.first && x.1.intervalStart == u.start
  {
    hide HasReceipts, StrictlyIncreasing, HonestLogs, OneBlockPerKey, Feasible, Contents, Play, Reached, Countable,
         ReceiptItem, Hash, IsNarrow, Counted, FlowKeyOf, HourOf, Lower;
    HasReceiptsMeans(s, p);
    x := ReceiptIsStored(s, p, runs, 0, v);
    StoredReceipt(s, p, runs, 0, x);
    forall z | z in Contents(Play(s, runs).silver) ensures z == x {
      var k, w := SilverIsReceipt(s, p, runs, z);
      ReceiptItemMeans(s, p, k, w);
    }
    FirstInterval(s, p, runs, u, x);
  }

  lemma FirstInterval(s: Setup, p: Plan, runs: seq<Run>, u: Window, x: Item)
    requires HasReceipts(s, p) && SoundChain(s.chain) && Feasible(s, runs)
    requires runs != [] && runs[0].stage != Aborted && runs[0].window == u && InWindow(p.first, u)
    requires x in Contents(Play(s, runs).silver) && x.0 == LogKey(s.chainId, Hash(0), 0)
    ensures x.1.intervalStart == u.start
  {
    hide HasReceipts, StrictlyIncreasing, HonestLogs, OneBlockPerKey, Contents, Play, Reached, Countable, WindowFacts,
         FactOnChain, Receipt, D.Facts, D.KeyFunctional, D.UniqueKeys, Landable, HasBlock, DecodeTransfer, Hash,
         IsErc20Shape, Topic, Sender, Lower, RawCovers, SilverCovers;
    HasReceiptsMeans(s, p);
    ReceiptInChain(s, p, 0);
    ReceiptRow(s, p, 0, u);
    FactOfLog(s, u, p.Block(0), Receipt(s.cfg, p, 0));
    var f := FactOnChain(s, Receipt(s.cfg, p, 0), u).value;
    FactInterval(s, Receipt(s.cfg, p, 0), u);
    assert runs[0] in runs;
    FirstLandingStays(s, runs, f);
    AnyHistoryReflects(s, runs);
    AnyHistoryCovers(s, runs);
    UniqueIsFunctional(Play(s, runs).raw);
    DecodedAs(s.cfg, D.Facts(Play(s, runs).raw), x, f);
  }

  lemma UniqueIsFunctional(rows: seq<LogRow>)
    requires D.UniqueKeys(rows)
    ensures D.KeyFunctional(D.Facts(rows))
  {
    T.UniqueIsFunctional(rows);
  }

  lemma DecodedAs(cfg: Config, facts: set<LogFact>, x: Item, f: LogFact)
    requires D.KeyFunctional(facts) && f in facts && x in FullTransfers(cfg, facts) && x.0 == f.Key()
    ensures x.1.intervalStart == f.intervalStart
  {
    hide DecodeTransfer;
    var g :| g in facts && DecodeTransfer(cfg, g).Some? && x == (g.Key(), DecodeTransfer(cfg, g).value);
    TransferColumns(cfg, g);
  }

  /** The flow of a single transfer. */
  lemma OneFlow(cfg: Config, x: Item)
    requires Counted(cfg, x.1)
    ensures CountedItems(cfg, {x}) == {x}
    ensures Flows(cfg, {x}) == {(FlowKeyOf(cfg, x), One(x.1))}
  {
    hide Counted, FlowKeyOf;
    assert CountedItems(cfg, {x}) == {x};
    assert Group(cfg, {x}, FlowKeyOf(cfg, x)) == {x};
    assert GroupKeys(cfg, {x}) == {FlowKeyOf(cfg, x)};
    FoldOne(x);
  }

  lemma OneRegion(x: Item, done: set<Window>, w: Window)
    requires InSome(x.1.blockTimestamp, done)
    ensures Region({x}, done) == {x}
    ensures WindowItems({x}, w) == if InWindow(x.1.blockTimestamp, w) then {x} else {}
  {
  }

  /** The transfer lies in the window and its flow does not, or the other way round. */
  lemma StickingOutLoses(s: Setup, runs: seq<Run>, x: Item, w: Window)
    requires SoundChain(s.chain) && Feasible(s, runs) && AllHoursAgree(Reached(runs, GoldBuilt))
    requires Contents(Play(s, runs).silver) == {x} && Counted(s.cfg, x.1)
    requires InSome(x.1.blockTimestamp, Reached(runs, GoldBuilt))
    requires InWindow(x.1.blockTimestamp, w) != InWindow(x.1.intervalStart, w)
    ensures !SummaryConserved(s, runs, w)
  {
    hide StrictlyIncreasing, HonestLogs, OneBlockPerKey, Feasible, Play, Contents, Reached, AllHoursAgree, Flows,
         Counted, Incremental.UniqueKeys, FlowKeyOf, CountedItems, Region, WindowItems, Q.Summarize, Sum, Q.Directed,
         GroupKeys, DirectionOf, InWindow;
    var gold := Play(s, runs).gold;
    HoursAgreeRecomputes(s, runs);
    OneRegion(x, Reached(runs, GoldBuilt), w);
    OneFlow(s.cfg, x);
    NoGroups(s.cfg);
    NoneCounted(s.cfg);
    GoldIsUnique(s, runs);
    var flow := (FlowKeyOf(s.cfg, x), One(x.1));
    assert Contents(gold) == {flow} && flow.1.sourceIntervalStart == x.1.intervalStart;
    if InWindow(x.1.intervalStart, w) {
      assert (set c | c in Contents(gold) && InWindow(c.1.sourceIntervalStart, w)) == {flow};
      ConservedByContents(s.cfg, gold, w, {x});
      assert Q.Summarize(gold, w).transferCount == 1;
    } else {
      assert (set c | c in Contents(gold) && InWindow(c.1.sourceIntervalStart, w)) == {};
      ConservedByContents(s.cfg, gold, w, {});
      assert Q.Summarize(gold, w).transferCount == 0;
    }
  }

  lemma NoneCounted(cfg: Config)
    ensures CountedItems(cfg, {}) == {}
  {
  }

  /** A run for each window of the list: finished when the window is to be finished, and landed otherwise. */
  function StagedRuns(list: seq<Window>, done: set<Window>): seq<Run> {
    seq(|list|, i requires 0 <= i < |list| => Run(list[i], if list[i] in done then GoldBuilt else RawLanded, 0, 0))
  }

  lemma StagedReach(list: seq<Window>, landed: set<Window>, done: set<Window>)
    requires done <= landed && forall u :: u in list <==> u in landed
    ensures var runs := StagedRuns(list, done);
      && Reached(runs, RawLanded) == landed && Reached(runs, GoldBuilt) == done
      && forall r | r in runs :: r.window in landed
  {
    var runs := StagedRuns(list, done);
    forall u | u in landed
      ensures u in Reached(runs, RawLanded) && (u in done ==> u in Reached(runs, GoldBuilt))
    {
      var i :| 0 <= i < |list| && list[i] == u;
      assert runs[i] in runs && runs[i].window == u;
    }
    forall r | r in runs ensures r.window in landed && (r.stage == GoldBuilt <==> r.window in done) {
      var i :| 0 <= i < |runs| && runs[i] == r;
      assert list[i] in list;
    }
  }

  lemma StagedIsPlanned(provider: JsonRpc.Provider, list: seq<Window>, done: set<Window>)
    requires forall u | u in list :: u in done
    ensures StagedRuns(list, done) == Planned(JobsFor(provider, list))
  {
    assert forall i | 0 <= i < |list| :: list[i] in list;
  }

  lemma ListedFirst(ws: set<Window>, w: Window) returns (list: seq<Window>)
    requires w in ws
    ensures list != [] && list[0] == w && forall u :: u in list <==> u in ws
  {
    var rest := Listed(ws - {w});
    list := [w] + rest;
  }

  /** A history of the windows, on a sound chain, whose summary is wrong; a list of jobs when all are finished. */
  lemma StickingOutRefutes(cfg: Config, chainId: int, landed: set<Window>, done: set<Window>, w: Window, u: Window,
                           t: int)
    returns (chain: Chain, jobs: seq<Job>, runs: seq<Run>)
    requires Countable(cfg) && NoneEmpty(landed) && done <= landed && AllHoursAgree(done) && u in landed
    requires InWindow(t, u) && InSome(t, done) && InWindow(t, w) != InWindow(u.start, w)
    ensures var s := Setup(chain, chainId, cfg);
      && SoundChain(chain) && Feasible(s, runs)
      && Reached(runs, RawLanded) == landed && Reached(runs, GoldBuilt) == done && !SummaryConserved(s, runs, w)
      && (landed == done && chainId == 1 ==> runs == Planned(jobs) && AllGoWell(s, jobs) && OnChain(chain, jobs))
  {
    hide HasReceipts, StrictlyIncreasing, HonestLogs, OneBlockPerKey, Feasible, SummaryConserved, Reached, Countable,
         IsNarrow, IsUint256Word, IsLower, AllGoWell, OnChain, JobsFor, Planned, ChainOf, AllHoursAgree, Play, Contents,
         Counted;
    var base, top := Bounds(landed);
    UnitIsNarrow();
    var p := Plan(base, t, top, UNIT_WORD);
    chain := ChainOf(cfg, p);
    var s := Setup(chain, chainId, cfg);
    PlanHasReceipts(s, p);
    HasReceiptsMeans(s, p);
    var list := ListedFirst(landed, u);
    runs := StagedRuns(list, done);
    StagedReach(list, landed, done);
    ReceiptRunsFeasible(s, p, runs);
    ReachedNested(runs);
    var v :| v in done && InWindow(t, v);
    var x := OneIsStored(s, p, runs, u, v);
    StickingOutLoses(s, runs, x, w);
    var provider := ProviderOf(chainId, chain, top - base);
    jobs := JobsFor(provider, list);
    JobsAreOnChain(chainId, chain, top - base, list);
    if landed == done && chainId == 1 {
      StagedIsPlanned(provider, list, done);
      ReceiptJobsGoWell(s, p, top - base, list);
    }
  }

  // --- The exact condition ---

  /**
   The exact condition under which the quality summary of a finished window counts and adds up just the window's
   stored treasury transfers, whatever the chain and the order of the runs: no landed window sticks out of it, or
   into it, with an instant that has been finished; or nothing is ever counted. When all landed windows are finished
   it is no weaker for jobs on the main chain that all succeed.
   */
  lemma SummaryIsExactIffWhole(cfg: Config, chainId: int, landed: set<Window>, done: set<Window>, w: Window)
    requires NoneEmpty(landed) && done <= landed && w in done && AllHoursAgree(done)
    ensures SummaryIsExact(cfg, chainId, landed, done, w)
       <==> (forall u | u in landed :: Whole(u, w, done)) || !Countable(cfg)
    ensures landed == done ==>
      (PerformedSummaryIsExact(cfg, done, w) <==> (forall u | u in done :: Whole(u, w, done)) || !Countable(cfg))
  {
    hide Countable, Whole, SummaryIsExact, PerformedSummaryIsExact, AllHoursAgree;
    if (forall u | u in landed :: Whole(u, w, done)) || !Countable(cfg) {
      WholeIsExact(cfg, chainId, landed, done, w);
      if landed == done {
        WholeIsPerformedExact(cfg, done, w);
      }
    } else {
      var u :| u in landed && !Whole(u, w, done);
      NotSummaryExact(cfg, chainId, landed, done, w, u);
    }
  }

  lemma WholeIsExact(cfg: Config, chainId: int, landed: set<Window>, done: set<Window>, w: Window)
    requires w in done && AllHoursAgree(done) && ((forall u | u in landed :: Whole(u, w, done)) || !Countable(cfg))
    ensures SummaryIsExact(cfg, chainId, landed, done, w)
  {
    hide Countable, Whole, StrictlyIncreasing, HonestLogs, OneBlockPerKey, Feasible, SummaryConserved, Reached,
         AllHoursAgree;
    forall chain, runs |
      && SoundChain(chain) && Feasible(Setup(chain, chainId, cfg), runs)
      && Reached(runs, RawLanded) == landed && Reached(runs, GoldBuilt) == done
      ensures SummaryConserved(Setup(chain, chainId, cfg), runs, w)
    {
      var s := Setup(chain, chainId, cfg);
      if Countable(cfg) {
        WholeWindowsConserve(s, runs, w);
      } else {
        UncountableConserves(s, runs, w);
      }
    }
  }

  lemma WholeIsPerformedExact(cfg: Config, done: set<Window>, w: Window)
    requires w in done && AllHoursAgree(done) && ((forall u | u in done :: Whole(u, w, done)) || !Countable(cfg))
    ensures PerformedSummaryIsExact(cfg, done, w)
  {
    hide Countable, Whole, StrictlyIncreasing, HonestLogs, OneBlockPerKey, Feasible, SummaryConserved, Reached,
         AllHoursAgree, RunsOf;
    forall chain, jobs, runs, results |
      && SoundChain(chain) && RunsOf(Setup(chain, 1, cfg), jobs, runs, results) && AllSucceed(results)
      && Reached(runs, GoldBuilt) == done
      ensures SummaryConserved(Setup(chain, 1, cfg), runs, w)
    {
      var s := Setup(chain, 1, cfg);
      SuccessfulRunsFinish(s, jobs, runs, results);
      if Countable(cfg) {
        WholeWindowsConserve(s, runs, w);
      } else {
        UncountableConserves(s, runs, w);
      }
    }
  }

  lemma SuccessfulRunsFinish(s: Setup, jobs: seq<Job>, runs: seq<Run>, results: seq<Result<RunReport, RunError>>)
    requires StrictlyIncreasing(s.chain) && RunsOf(s, jobs, runs, results) && AllSucceed(results)
    ensures Feasible(s, runs) && Reached(runs, RawLanded) == Reached(runs, GoldBuilt)
  {
    hide StrictlyIncreasing, Feasible, Fetchable, Landable, TestsPass, Smooth, Play;
    forall r | r in runs ensures r.stage == GoldBuilt {
      var i :| 0 <= i < |runs| && runs[i] == r;
      assert Outcome(s, Play(s, runs[..i]), jobs[i], runs[i], results[i]) && results[i] in results;
    }
  }

  lemma NotSummaryExact(cfg: Config, chainId: int, landed: set<Window>, done: set<Window>, w: Window, u: Window)
    requires Countable(cfg) && NoneEmpty(landed) && done <= landed && AllHoursAgree(done)
    requires u in landed && !Whole(u, w, done)
    ensures !SummaryIsExact(cfg, chainId, landed, done, w)
    ensures landed == done ==> !PerformedSummaryIsExact(cfg, done, w)
  {
    hide Countable, StrictlyIncreasing, HonestLogs, OneBlockPerKey, Feasible, SummaryConserved, Reached, InWindow,
         AllHoursAgree, RunsOf, AllGoWell, Planned, InSome;
    var t :| InWindow(t, u) && InSome(t, done) && InWindow(t, w) != InWindow(u.start, w);
    var chain, jobs, runs := StickingOutRefutes(cfg, chainId, landed, done, w, u, t);
    assert !SummaryConserved(Setup(chain, chainId, cfg), runs, w);
    if landed == done {
      var main, jobsThere, runsThere := StickingOutRefutes(cfg, 1, landed, done, w, u, t);
      var results := PlannedIsOutcome(Setup(main, 1, cfg), jobsThere);
      assert !SummaryConserved(Setup(main, 1, cfg), runsThere, w);
    }
  }

  /** An example: a window of two hours and then its second hour again, all on the hour; the second summary is wrong. */
  lemma OverlapMayLoseTheSummary(cfg: Config)
    requires Countable(cfg)
    ensures var u, w := Window(0, 7200), Window(3600, 7200);
      && AllHoursAgree({u, w}) && !PerformedSummaryIsExact(cfg, {u, w}, w) && PerformedSummaryIsExact(cfg, {u, w}, u)
  {
    hide Countable, PerformedSummaryIsExact, SummaryIsExact, HourOf;
    var u, w := Window(0, 7200), Window(3600, 7200);
    forall a, b | a in {u, w} && b in {u, w} ensures HoursAgree(a, b) {
      HoursAgreeMeans(a, b);
    }
    SummaryIsExactIffWhole(cfg, 1, {u, w}, {u, w}, w);
    SummaryIsExactIffWhole(cfg, 1, {u, w}, {u, w}, u);
    assert InWindow(3600, u) && InWindow(3600, w) && InSome(3600, {u, w}) && !InWindow(u.start, w);
    assert !Whole(u, w, {u, w});
  }
}
