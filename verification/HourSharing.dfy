/** When building gold window by window gives what one aggregation gives: exactly when the windows agree about hours. */
module HourSharing {
  import opened Chain
  import opened Text
  import opened Uint256
  import opened LogNormalizer
  import opened Incremental
  import opened Silver
  import opened Gold
  import opened Pipeline
  import opened Convergence
  import opened OverlappingGold
  import opened Histories
  import opened Receipts
  import opened ReceiptHistories
  import T = TestHistories
  import D = DeltaWriter

  /** Whatever the chain, every history that finishes just these windows leaves gold as one aggregation gives it. */
  ghost predicate GoldIsExact(cfg: Config, chainId: int, ws: set<Window>) {
    forall chain, runs |
      SoundChain(chain) && Feasible(Setup(chain, chainId, cfg), runs) && Reached(runs, GoldBuilt) == ws ::
      GoldRecomputes(Setup(chain, chainId, cfg), runs)
  }

  /** The same for what jobs on the main chain can come to when every one of them reports success. */
  ghost predicate PerformedGoldIsExact(cfg: Config, ws: set<Window>) {
    forall chain, jobs, runs, results |
      && SoundChain(chain) && RunsOf(Setup(chain, 1, cfg), jobs, runs, results) && AllSucceed(results)
      && Reached(runs, GoldBuilt) == ws ::
      GoldRecomputes(Setup(chain, 1, cfg), runs)
  }

  // --- Clock hours of windows ---

  /** For windows in order it is enough to compare the last second of one with the first of the next. */
  lemma HourApartInOrder(v: Window, w: Window)
    requires v.start < v.end <= w.start < w.end
    ensures HourApart(v, w) <==> HourOf(v.end - 1) != HourOf(w.start)
  {
    if HourOf(v.end - 1) != HourOf(w.start) {
      forall s, t | InWindow(s, v) && InWindow(t, w) ensures HourOf(s) != HourOf(t) {
        HourMonotone(s, v.end - 1);
        HourMonotone(v.end - 1, w.start);
        HourMonotone(w.start, t);
      }
    } else {
      assert InWindow(v.end - 1, v) && InWindow(w.start, w);
    }
  }

  lemma HourMonotone(s: int, t: int)
    requires s <= t
    ensures HourOf(s) <= HourOf(t)
  {
    var m, n := s / SECONDS_PER_HOUR, t / SECONDS_PER_HOUR;
    assert HourOf(s) == SECONDS_PER_HOUR * m && HourOf(t) == SECONDS_PER_HOUR * n;
  }

  lemma SameHour(t: int)
    requires t % SECONDS_PER_HOUR != 0
    ensures HourOf(t - 1) == HourOf(t)
  {
    var n := t / SECONDS_PER_HOUR;
    assert t == SECONDS_PER_HOUR * n + t % SECONDS_PER_HOUR;
    assert (t - 1) / SECONDS_PER_HOUR == n;
  }

  // --- A disagreement about an hour loses a transfer ---

  /** Of one window's items, those of the pair it contains. */
  lemma PairItem(x: Item, y: Item, w: Window)
    requires !InWindow(x.1.blockTimestamp, w) && InWindow(y.1.blockTimestamp, w)
    ensures WindowItems({x, y}, w) == {y}
  {
  }

  /** The flow of a set of transfers that all belong to one group counts them all. */
  lemma OneGroup(cfg: Config, items: set<Item>, key: FlowKey)
    requires items != {} && forall x | x in items :: Counted(cfg, x.1) && FlowKeyOf(cfg, x) == key
    ensures exists f: Flow :: Flows(cfg, CountedItems(cfg, items)) == {(key, f)} && f.transferCount == |items|
  {
    hide Counted, FlowKeyOf, Fold;
    assert CountedItems(cfg, items) == items;
    assert Group(cfg, items, key) == items;
    assert GroupKeys(cfg, items) == {key};
    FoldMeans(items);
    assert Flows(cfg, items) == {(key, Fold(items))};
  }

  /** The later window replaces the hour's flow by its own part of it. */
  lemma LastBuildWins(cfg: Config, silver: seq<TransferRow>, gold: seq<FlowRow>, x: Item, y: Item, w: Window, now: int)
    requires Incremental.UniqueKeys(silver) && Contents(silver) == {x, y}
    requires !InWindow(x.1.blockTimestamp, w) && InWindow(y.1.blockTimestamp, w)
    requires Counted(cfg, x.1) && Counted(cfg, y.1) && FlowKeyOf(cfg, x) == FlowKeyOf(cfg, y)
    ensures Contents(DeleteInsert(gold, GoldQuery(cfg, silver, w, now))) != Flows(cfg, CountedItems(cfg, {x, y}))
  {
    hide Incremental.UniqueKeys, Counted, Contents, Flows, CountedItems, WindowItems, GoldQuery, FlowKeyOf,
         DeleteInsert;
    var key := FlowKeyOf(cfg, x);
    PairItem(x, y, w);
    assert x != y && |{x, y}| == 2;
    GoldQueryMeans(cfg, silver, w, now);
    OneGroup(cfg, {y}, key);
    OneGroup(cfg, {x, y}, key);
    var part: Flow :| Flows(cfg, CountedItems(cfg, {y})) == {(key, part)} && part.transferCount == 1;
    var full: Flow :| Flows(cfg, CountedItems(cfg, {x, y})) == {(key, full)} && full.transferCount == 2;
    DeleteInsertOverrides(gold, GoldQuery(cfg, silver, w, now));
    assert (key, part) in Contents(DeleteInsert(gold, GoldQuery(cfg, silver, w, now)));
  }

  lemma LastRun(s: Setup, front: seq<Run>, r: Run)
    requires StrictlyIncreasing(s.chain) && r.stage == GoldBuilt
    ensures var runs := front + [r];
      Play(s, runs).gold == DeleteInsert(Play(s, front).gold,
           GoldQuery(s.cfg, Play(s, runs).silver, r.window, r.updatedAt))
  {
    hide StrictlyIncreasing, WindowRows, D.InsertRows, SilverQuery, GoldQuery, DeleteInsert;
    assert (front + [r])[..|front|] == front;
  }

  /** The earlier window's transfer shares the hour of the last one's and lies outside it: gold then misses it. */
  lemma DisagreementLoses(s: Setup, p: Plan, runs: seq<Run>, v: Window, w: Window)
    requires HasReceipts(s, p) && SoundChain(s.chain) && IsNarrow(p.data) && Feasible(s, runs) && runs != []
    requires runs[|runs| - 1].stage == GoldBuilt && runs[|runs| - 1].window == w
    requires v in Reached(runs, GoldBuilt) && w in Reached(runs, GoldBuilt)
    requires InWindow(p.first, v) && InWindow(p.second, w) && !InWindow(p.first, w)
    requires HourOf(p.first) == HourOf(p.second)
    ensures !GoldRecomputes(s, runs)
  {
    hide HasReceipts, StrictlyIncreasing, HonestLogs, OneBlockPerKey, Feasible, Contents, Play, Reached, Countable,
         IsNarrow, Counted, FlowKeyOf, HourOf, Flows, CountedItems, Incremental.UniqueKeys, DeleteInsert, GoldQuery;
    var front, last := runs[..|runs| - 1], runs[|runs| - 1];
    assert runs == front + [last];
    ReachedNested(runs);
    var x, y := PairIsStored(s, p, runs, v, w);
    assert InSome(x.1.blockTimestamp, Reached(runs, GoldBuilt)) && InSome(y.1.blockTimestamp, Reached(runs, GoldBuilt));
    assert Region({x, y}, Reached(runs, GoldBuilt)) == {x, y};
    SilverIsUnique(s, runs);
    LastRun(s, front, last);
    LastBuildWins(s.cfg, Play(s, runs).silver, Play(s, front).gold, x, y, w, last.updatedAt);
  }

  /**
   When two windows disagree about an hour there is a sound chain, and there are jobs, one for each window, whose
   history leaves gold inexact. On the main chain every one of the jobs reports success, whatever else may happen.
   */
  lemma DisagreementRefutes(cfg: Config, chainId: int, ws: set<Window>, v: Window, w: Window, a: int, b: int)
    returns (chain: Chain, jobs: seq<Job>)
    requires Countable(cfg) && NoneEmpty(ws) && v in ws && w in ws
    requires InWindow(a, v) && InWindow(b, w) && !InWindow(a, w) && HourOf(a) == HourOf(b)
    ensures var s := Setup(chain, chainId, cfg);
      && SoundChain(chain) && Feasible(s, Planned(jobs)) && Reached(Planned(jobs), GoldBuilt) == ws
      && !GoldRecomputes(s, Planned(jobs)) && (chainId == 1 ==> AllGoWell(s, jobs)) && OnChain(chain, jobs)
  {
    hide HasReceipts, StrictlyIncreasing, HonestLogs, OneBlockPerKey, Feasible, GoldRecomputes, Reached, Countable,
         HourOf, IsNarrow, IsUint256Word, IsLower, AllGoWell, OnChain, JobsFor, Planned, ChainOf;
    var base, top := Bounds(ws);
    UnitIsNarrow();
    var p := Plan(base, a, b, UNIT_WORD);
    chain := ChainOf(cfg, p);
    var s := Setup(chain, chainId, cfg);
    assert HasReceipts(s, p) by { PlanHasReceipts(s, p); }
    HasReceiptsMeans(s, p);
    var list := ListedLast(ws, w);
    var provider := ProviderOf(chainId, chain, top - base);
    jobs := JobsFor(provider, list);
    JobsAreOnChain(chainId, chain, top - base, list);
    PlannedReach(provider, list, ws);
    ReceiptRunsFeasible(s, p, Planned(jobs));
    LastPlanned(provider, list);
    DisagreementLoses(s, p, Planned(jobs), v, w);
    if chainId == 1 {
      ReceiptJobsGoWell(s, p, top - base, list);
    }
  }

  lemma {:induction false} GoldStaysEmpty(s: Setup, runs: seq<Run>)
    requires StrictlyIncreasing(s.chain) && !Countable(s.cfg)
    ensures Contents(Play(s, runs).gold) == {}
  {
    hide Countable, StrictlyIncreasing, WindowRows, D.InsertRows, SilverQuery, GoldQuery, DeleteInsert, Contents, Flows,
         CountedItems, Incremental.UniqueKeys, T.Derived;
    if runs == [] {
      RowsNone<FlowKey, Flow>();
    } else {
      var front, r := runs[..|runs| - 1], runs[|runs| - 1];
      GoldStaysEmpty(s, front);
      if r.stage == GoldBuilt {
        assert runs == front + [r];
        LastRun(s, front, r);
        T.TablesAreSound(s, runs);
        var silver := Play(s, runs).silver;
        GoldQueryMeans(s.cfg, silver, r.window, r.updatedAt);
        NothingCounted(s, WindowItems(Contents(silver), r.window));
        DeleteInsertOverrides(Play(s, front).gold, GoldQuery(s.cfg, silver, r.window, r.updatedAt));
      }
    }
  }

  lemma UncountableRecomputes(s: Setup, runs: seq<Run>)
    requires StrictlyIncreasing(s.chain) && !Countable(s.cfg)
    ensures GoldRecomputes(s, runs)
  {
    hide Countable, StrictlyIncreasing, Reached, Contents, Play, Flows, CountedItems, T.Derived, D.UniqueKeys,
         Incremental.UniqueKeys, D.Facts;
    GoldStaysEmpty(s, runs);
    T.TablesAreSound(s, runs);
    NothingCounted(s, Region(Contents(Play(s, runs).silver), Reached(runs, GoldBuilt)));
  }

  // --- The exact condition ---

  /**
   The exact condition under which gold, built window by window, is what one aggregation of silver gives, on every
   sound chain and for every history of the windows, which may overlap: any two of them agree about hours, or the
   configuration is such that nothing is ever counted. It is no weaker for jobs on the main chain that all succeed.
   */
  lemma GoldIsExactIffHoursAgree(cfg: Config, chainId: int, ws: set<Window>)
    requires NoneEmpty(ws)
    ensures GoldIsExact(cfg, chainId, ws) <==> AllHoursAgree(ws) || !Countable(cfg)
    ensures PerformedGoldIsExact(cfg, ws) <==> AllHoursAgree(ws) || !Countable(cfg)
  {
    hide Countable, StrictlyIncreasing, HonestLogs, OneBlockPerKey, Feasible, GoldRecomputes, Reached, HourOf,
         GoldIsExact, PerformedGoldIsExact;
    if AllHoursAgree(ws) || !Countable(cfg) {
      AgreementIsExact(cfg, chainId, ws);
      AgreementIsExact(cfg, 1, ws);
      ExactIsPerformedExact(cfg, ws);
    } else {
      var v, w :| v in ws && w in ws && !HoursAgree(v, w);
      var a, b :| InWindow(a, v) && InWindow(b, w) && HourOf(a) == HourOf(b) && !(InWindow(a, w) && InWindow(b, v));
      if !InWindow(a, w) {
        NotExact(cfg, chainId, ws, v, w, a, b);
      } else {
        NotExact(cfg, chainId, ws, w, v, b, a);
      }
    }
  }

  lemma AgreementIsExact(cfg: Config, chainId: int, ws: set<Window>)
    requires AllHoursAgree(ws) || !Countable(cfg)
    ensures GoldIsExact(cfg, chainId, ws)
  {
    hide Countable, StrictlyIncreasing, HonestLogs, OneBlockPerKey, Feasible, GoldRecomputes, Reached, AllHoursAgree;
    forall chain, runs |
      SoundChain(chain) && Feasible(Setup(chain, chainId, cfg), runs) && Reached(runs, GoldBuilt) == ws
      ensures GoldRecomputes(Setup(chain, chainId, cfg), runs)
    {
      var s := Setup(chain, chainId, cfg);
      if Countable(cfg) {
        HoursAgreeRecomputes(s, runs);
      } else {
        UncountableRecomputes(s, runs);
      }
    }
  }

  lemma ExactIsPerformedExact(cfg: Config, ws: set<Window>)
    requires GoldIsExact(cfg, 1, ws)
    ensures PerformedGoldIsExact(cfg, ws)
  {
    hide StrictlyIncreasing, HonestLogs, OneBlockPerKey, Feasible, GoldRecomputes, Reached, Outcome;
  }

  lemma NotExact(cfg: Config, chainId: int, ws: set<Window>, v: Window, w: Window, a: int, b: int)
    requires Countable(cfg) && NoneEmpty(ws) && v in ws && w in ws
    requires InWindow(a, v) && InWindow(b, w) && !InWindow(a, w) && HourOf(a) == HourOf(b)
    ensures !GoldIsExact(cfg, chainId, ws) && !PerformedGoldIsExact(cfg, ws)
  {
    hide Countable, StrictlyIncreasing, HonestLogs, OneBlockPerKey, Feasible, GoldRecomputes, Reached, HourOf, Outcome,
         Planned, RunsOf, AllGoWell;
    var chain, jobs := DisagreementRefutes(cfg, chainId, ws, v, w, a, b);
    assert !GoldRecomputes(Setup(chain, chainId, cfg), Planned(jobs));
    var main, jobsThere := DisagreementRefutes(cfg, 1, ws, v, w, a, b);
    var results := PlannedIsOutcome(Setup(main, 1, cfg), jobsThere);
    assert !GoldRecomputes(Setup(main, 1, cfg), Planned(jobsThere));
  }

  /** Whatever becomes of jobs that go well, they all report success and gold is inexact: no luck is needed to lose. */
  lemma LosingJobs(cfg: Config, ws: set<Window>, v: Window, w: Window, a: int, b: int)
    returns (chain: Chain, jobs: seq<Job>)
    requires Countable(cfg) && NoneEmpty(ws) && v in ws && w in ws
    requires InWindow(a, v) && InWindow(b, w) && !InWindow(a, w) && HourOf(a) == HourOf(b)
    ensures SoundChain(chain) && OnChain(chain, jobs)
    ensures forall runs, results | RunsOf(Setup(chain, 1, cfg), jobs, runs, results) ::
      AllSucceed(results) && Reached(runs, GoldBuilt) == ws && !GoldRecomputes(Setup(chain, 1, cfg), runs)
  {
    hide Countable, StrictlyIncreasing, HonestLogs, OneBlockPerKey, Feasible, GoldRecomputes, Reached, HourOf, Outcome,
         Planned, RunsOf, AllGoWell;
    chain, jobs := DisagreementRefutes(cfg, 1, ws, v, w, a, b);
    forall runs, results | RunsOf(Setup(chain, 1, cfg), jobs, runs, results)
      ensures AllSucceed(results) && runs == Planned(jobs)
    {
      PlannedRuns(Setup(chain, 1, cfg), jobs, runs, results);
    }
  }

  /** For windows that are the same or disjoint, to agree about hours is to share none. */
  lemma AgreeingSeparateWindows(ws: set<Window>)
    requires forall v, w | v in ws && w in ws :: v == w || Disjoint(v, w)
    ensures AllHoursAgree(ws) <==> HoursApart(ws)
  {
    hide HourApart, HourOf, Disjoint;
    forall v, w | v in ws && w in ws ensures v != w ==> (HoursAgree(v, w) <==> HourApart(v, w)) {
      HoursAgreeMeans(v, w);
    }
    forall w ensures HoursAgree(w, w) {
    }
  }

  /** Adjacent windows are exact together if and only if the boundary between them is a full hour. */
  lemma AdjacentWindowsNeedAFullHour(cfg: Config, start: int, boundary: int, end: int)
    requires Countable(cfg) && start < boundary < end
    ensures PerformedGoldIsExact(cfg, {Window(start, boundary), Window(boundary, end)})
       <==> boundary % SECONDS_PER_HOUR == 0
  {
    hide PerformedGoldIsExact, GoldIsExact, Countable, HourOf, HourApart, AllHoursAgree;
    var v, w := Window(start, boundary), Window(boundary, end);
    HourApartInOrder(v, w);
    HourApartSwaps(v, w);
    AgreeingSeparateWindows({v, w});
    GoldIsExactIffHoursAgree(cfg, 1, {v, w});
    if boundary % SECONDS_PER_HOUR == 0 {
      HourBelow(boundary - 1, boundary, boundary);
    } else {
      SameHour(boundary);
    }
  }

  lemma HourApartSwaps(v: Window, w: Window)
    ensures HourApart(v, w) <==> HourApart(w, v)
  {
  }

  /** Being one hour long is not enough: two adjacent windows from half past to half past lose a transfer. */
  lemma OneHourWindowsMayShareAnHour(cfg: Config)
    requires Countable(cfg)
    ensures var v, w := Window(1800, 5400), Window(5400, 9000);
      && Disjoint(v, w) && v.end - v.start == w.end - w.start == SECONDS_PER_HOUR
      && !PerformedGoldIsExact(cfg, {v, w})
  {
    hide PerformedGoldIsExact, Countable;
    AdjacentWindowsNeedAFullHour(cfg, 1800, 5400, 9000);
  }
}
