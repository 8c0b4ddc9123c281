/** Gold for histories whose windows may overlap: what it is worth, and when it is one aggregation. */
module OverlappingGold {
  import opened Chain
  import opened LogNormalizer
  import opened Incremental
  import opened Silver
  import opened Gold
  import opened Pipeline
  import opened Convergence
  import opened OverlappingWindows
  import D = DeltaWriter

  // --- Silver is a window of raw that, once built, does not change ---

  /** A fact whose key was there before an insertion was there itself. */
  lemma OldKeyOldFact(table: seq<LogRow>, batch: seq<LogRow>, f: LogFact)
    requires D.UniqueKeys(table)
    requires f in D.Facts(D.InsertRows(table, batch)) && f.Key() in D.Keys(table)
    ensures f in D.Facts(table)
  {
    hide D.InsertRows;
    var after := D.InsertRows(table, batch);
    D.InsertExtends(table, batch);
    D.InsertKeepsUnique(table, batch);
    var i :| 0 <= i < |after| && after[i].fact == f;
    D.KeyAt(table, f.Key());
    var j :| 0 <= j < |table| && D.RowKey(table[j]) == f.Key();
    assert after[j] == table[j] && j == i;
    assert table[j] in table;
  }

  /** No later landing adds a fact to a window that has been landed. */
  lemma LandedIsSettled(s: Setup, raw: seq<LogRow>, landed: set<Window>, w: Window, u: Window, ingestedAt: int)
    requires SoundChain(s.chain) && D.UniqueKeys(raw) && RawCovers(s, raw, landed) && w in landed
    ensures D.Facts(raw) <= D.Facts(D.InsertRows(raw, WindowRows(s, u, ingestedAt)))
    ensures Transfers(s.cfg, D.Facts(D.InsertRows(raw, WindowRows(s, u, ingestedAt))), w)
         == Transfers(s.cfg, D.Facts(raw), w)
  {
    hide StrictlyIncreasing, HonestLogs, OneBlockPerKey, D.UniqueKeys, D.Facts, D.Keys, D.InsertRows, WindowRows,
         WindowFacts, DecodeTransfer;
    var after := D.InsertRows(raw, WindowRows(s, u, ingestedAt));
    BatchFacts(s, u, ingestedAt);
    D.InsertExtends(raw, WindowRows(s, u, ingestedAt));
    forall f | f in D.Facts(after) && InWindow(f.blockTimestamp, w) ensures f in D.Facts(raw) {
      if f in WindowFacts(s, u) {
        FactOfOtherWindow(s, u, f, w);
        assert f.(intervalStart := w.start, intervalEnd := w.end) in AllFacts(s, landed);
        OldKeyOldFact(raw, WindowRows(s, u, ingestedAt), f);
      }
    }
  }

  /** The stored transfers are decoded from raw rows, and in a built window there is one for every raw transfer. */
  ghost predicate Reflects(s: Setup, raw: seq<LogRow>, silver: seq<TransferRow>, built: set<Window>) {
    && Contents(silver) <= FullTransfers(s.cfg, D.Facts(raw))
    && forall w | w in built :: Transfers(s.cfg, D.Facts(raw), w) <= Contents(silver)
  }

  lemma DecodedInWindow(cfg: Config, facts: set<LogFact>, x: Item, w: Window)
    requires x in FullTransfers(cfg, facts) && InWindow(x.1.blockTimestamp, w)
    ensures x in Transfers(cfg, facts, w)
  {
    hide DecodeTransfer;
    var f :| f in facts && DecodeTransfer(cfg, f).Some? && x == (f.Key(), DecodeTransfer(cfg, f).value);
    TransferColumns(cfg, f);
  }

  lemma DecodedFrom(cfg: Config, facts: set<LogFact>, w: Window)
    ensures Transfers(cfg, facts, w) <= FullTransfers(cfg, facts)
  {
    hide DecodeTransfer;
  }

  lemma DecodingIsFunctional(cfg: Config, facts: set<LogFact>)
    requires D.KeyFunctional(facts)
    ensures Functional(FullTransfers(cfg, facts))
  {
    hide DecodeTransfer;
  }

  lemma DecodingGrows(cfg: Config, facts: set<LogFact>, more: set<LogFact>)
    requires facts <= more
    ensures FullTransfers(cfg, facts) <= FullTransfers(cfg, more)
  {
    hide DecodeTransfer;
  }

  /** Transfers of a built window are the raw table's transfers of that window. */
  lemma BuiltWindowReflects(s: Setup, raw: seq<LogRow>, silver: seq<TransferRow>, built: set<Window>, w: Window)
    requires Reflects(s, raw, silver, built) && w in built
    ensures WindowItems(Contents(silver), w) == Transfers(s.cfg, D.Facts(raw), w)
  {
    hide D.Facts, Contents, FullTransfers, Transfers;
    forall x | x in WindowItems(Contents(silver), w) ensures x in Transfers(s.cfg, D.Facts(raw), w) {
      DecodedInWindow(s.cfg, D.Facts(raw), x, w);
    }
    forall x | x in Transfers(s.cfg, D.Facts(raw), w) ensures x in WindowItems(Contents(silver), w) {
      TransferTime(s.cfg, D.Facts(raw), w, x);
    }
  }

  lemma TransferTime(cfg: Config, facts: set<LogFact>, w: Window, x: Item)
    requires x in Transfers(cfg, facts, w)
    ensures InWindow(x.1.blockTimestamp, w)
  {
    hide DecodeTransfer;
    var f :| f in facts && InWindow(f.blockTimestamp, w) && DecodeTransfer(cfg, f).Some?
      && x == (f.Key(), DecodeTransfer(cfg, f).value);
    TransferColumns(cfg, f);
  }

  lemma ReflectsAfterLanding(s: Setup, raw: seq<LogRow>, silver: seq<TransferRow>, landed: set<Window>,
                             built: set<Window>, u: Window, ingestedAt: int)
    requires SoundChain(s.chain) && D.UniqueKeys(raw) && RawCovers(s, raw, landed) && built <= landed
    requires Reflects(s, raw, silver, built)
    ensures Reflects(s, D.InsertRows(raw, WindowRows(s, u, ingestedAt)), silver, built)
  {
    hide StrictlyIncreasing, HonestLogs, OneBlockPerKey, D.UniqueKeys, D.Facts, D.InsertRows, WindowRows, RawCovers,
         Contents, FullTransfers, Transfers;
    D.InsertExtends(raw, WindowRows(s, u, ingestedAt));
    var after := D.InsertRows(raw, WindowRows(s, u, ingestedAt));
    DecodingGrows(s.cfg, D.Facts(raw), D.Facts(after));
    forall w | w in built ensures Transfers(s.cfg, D.Facts(after), w) <= Contents(silver) {
      LandedIsSettled(s, raw, landed, w, u, ingestedAt);
    }
  }

  /** Building silver just adds the window's transfers: a stored transfer never changes. */
  lemma ReflectsAfterBuilding(s: Setup, raw: seq<LogRow>, silver: seq<TransferRow>, built: set<Window>, w: Window)
    requires D.UniqueKeys(raw) && Reflects(s, raw, silver, built)
    ensures var after := DeleteInsert(silver, SilverQuery(s.cfg, raw, w));
      && Contents(after) == Contents(silver) + Transfers(s.cfg, D.Facts(raw), w)
      && Reflects(s, raw, after, built + {w})
  {
    hide D.UniqueKeys, D.Facts, D.Conflict, D.KeyFunctional, SilverQuery, DeleteInsert, Contents, FullTransfers,
         Transfers, Functional;
    D.ConflictMeans(raw);
    UniqueHasNoConflict(raw);
    SilverQueryMeans(s.cfg, raw, w);
    DecodedFrom(s.cfg, D.Facts(raw), w);
    DecodingIsFunctional(s.cfg, D.Facts(raw));
    SubsetFunctional(FullTransfers(s.cfg, D.Facts(raw)), Contents(silver) + Transfers(s.cfg, D.Facts(raw), w));
    DeleteInsertIsUnion(silver, SilverQuery(s.cfg, raw, w));
  }

  lemma SubsetFunctional(all: set<Item>, some: set<Item>)
    requires Functional(all) && some <= all
    ensures Functional(some)
  {
  }

  lemma {:induction false} AnyHistoryReflects(s: Setup, runs: seq<Run>)
    requires SoundChain(s.chain) && Feasible(s, runs)
    ensures Reflects(s, Play(s, runs).raw, Play(s, runs).silver, Reached(runs, SilverBuilt))
  {
    hide StrictlyIncreasing, HonestLogs, OneBlockPerKey, Feasible, Reached, Reflects, RawCovers, SilverCovers,
         D.UniqueKeys, D.InsertRows, WindowRows, SilverQuery, GoldQuery, DeleteInsert;
    if runs == [] {
      NothingReflects(s);
    } else {
      var front, r := runs[..|runs| - 1], runs[|runs| - 1];
      assert runs == front + [r];
      FeasibleMeans(s, runs);
      AnyHistoryReflects(s, front);
      AnyHistoryCovers(s, front);
      AnyHistoryCovers(s, runs);
      ReachedAdd(front, r, SilverBuilt);
      ReachedNested(front);
      if r.stage != Aborted {
        var t := Play(s, front);
        var raw := D.InsertRows(t.raw, WindowRows(s, r.window, r.ingestedAt));
        ReflectsAfterLanding(s, t.raw, t.silver, Reached(front, RawLanded), Reached(front, SilverBuilt), r.window,
                             r.ingestedAt);
        D.InsertKeepsUnique(t.raw, WindowRows(s, r.window, r.ingestedAt));
        ReflectsAfterBuilding(s, raw, t.silver, Reached(front, SilverBuilt), r.window);
      }
    }
  }

  lemma NothingReflects(s: Setup)
    ensures Reflects(s, [], [], Reached([], SilverBuilt))
  {
    hide DecodeTransfer;
  }

  // --- Windows whose hours agree ---

  /** Whenever an instant of one window shares a clock hour with one of the other, both lie in both. */
  ghost predicate HoursAgree(v: Window, w: Window) {
    forall s, t | InWindow(s, v) && InWindow(t, w) && HourOf(s) == HourOf(t) :: InWindow(s, w) && InWindow(t, v)
  }

  ghost predicate AllHoursAgree(ws: set<Window>) {
    forall v, w | v in ws && w in ws :: HoursAgree(v, w)
  }

  /** For disjoint windows this is to share no hour, and all windows that start and end on the hour have it. */
  lemma HoursAgreeMeans(v: Window, w: Window)
    ensures Disjoint(v, w) ==> (HoursAgree(v, w) <==> HourApart(v, w))
    ensures HourAligned(v) && HourAligned(w) ==> HoursAgree(v, w)
  {
    hide HourOf;
    if HourAligned(v) && HourAligned(w) {
      forall s, t | InWindow(s, v) && InWindow(t, w) && HourOf(s) == HourOf(t)
        ensures InWindow(s, w) && InWindow(t, v)
      {
        WholeHour(w, t, s);
        WholeHour(v, s, t);
      }
    }
  }

  lemma WholeHour(w: Window, s: int, t: int)
    requires HourAligned(w) && InWindow(s, w) && HourOf(s) == HourOf(t)
    ensures InWindow(t, w)
  {
    HourBelow(w.start - 1, s, w.start);
    HourBelow(s, w.end, w.end);
    if t < w.start {
      HourBelow(t, s, w.start);
    } else if w.end <= t {
      HourBelow(s, t, w.end);
    }
  }

  // --- Gold as one aggregation of silver ---

  /** The transfers that lie in some of the windows. */
  ghost function Region(items: set<Item>, ws: set<Window>): set<Item> {
    set x | x in items && InSome(x.1.blockTimestamp, ws)
  }

  /** Gold holds what one aggregation over the stored transfers of the finished windows gives. */
  ghost predicate GoldRecomputes(s: Setup, runs: seq<Run>)
    requires StrictlyIncreasing(s.chain)
  {
    var t := Play(s, runs);
    Contents(t.gold) == Flows(s.cfg, CountedItems(s.cfg, Region(Contents(t.silver), Reached(runs, GoldBuilt))))
  }

  /** Where the second set brings whole groups along, its flows override those of the first. */
  lemma FlowsOverride(cfg: Config, a: set<Item>, b: set<Item>)
    requires forall x, y | x in a && y in b && FlowKeyOf(cfg, x) == FlowKeyOf(cfg, y) :: x in b
    ensures Flows(cfg, a + b) == (set c | c in Flows(cfg, a) && c.0 !in GroupKeys(cfg, b)) + Flows(cfg, b)
  {
    hide FlowKeyOf, Fold;
    forall k | k in GroupKeys(cfg, b) ensures FlowOf(cfg, a + b, k) == FlowOf(cfg, b, k) {
      var y :| y in b && FlowKeyOf(cfg, y) == k;
      assert Group(cfg, a + b, k) == Group(cfg, b, k);
    }
    forall k | k in GroupKeys(cfg, a) && k !in GroupKeys(cfg, b) ensures FlowOf(cfg, a + b, k) == FlowOf(cfg, a, k) {
      assert Group(cfg, a + b, k) == Group(cfg, a, k);
    }
    assert GroupKeys(cfg, a + b) == GroupKeys(cfg, a) + GroupKeys(cfg, b);
  }

  lemma SameGroupSameHour(cfg: Config, x: Item, y: Item)
    requires FlowKeyOf(cfg, x) == FlowKeyOf(cfg, y)
    ensures HourOf(x.1.blockTimestamp) == HourOf(y.1.blockTimestamp)
  {
  }

  lemma RegionAdd(items: set<Item>, ws: set<Window>, w: Window)
    ensures Region(items, ws + {w}) == Region(items, ws) + WindowItems(items, w)
  {
    forall x | x in Region(items, ws + {w}) ensures x in Region(items, ws) + WindowItems(items, w) {
      var v :| v in ws + {w} && InWindow(x.1.blockTimestamp, v);
    }
  }

  lemma FlowKeys(cfg: Config, items: set<Item>)
    ensures forall k :: k in GroupKeys(cfg, items) <==> exists c :: c in Flows(cfg, items) && c.0 == k
  {
    hide FlowKeyOf, FlowOf;
    forall k | k in GroupKeys(cfg, items) ensures exists c :: c in Flows(cfg, items) && c.0 == k {
      assert (k, FlowOf(cfg, items, k)) in Flows(cfg, items);
    }
  }

  /** Building gold for a window whose hours agree with those of the finished ones. */
  lemma GoldStaysRecomputed(cfg: Config, silver: seq<TransferRow>, gold: seq<FlowRow>, done: set<Window>, w: Window,
                            updatedAt: int)
    requires Incremental.UniqueKeys(silver) && AllHoursAgree(done + {w})
    requires Contents(gold) == Flows(cfg, CountedItems(cfg, Region(Contents(silver), done)))
    ensures Contents(DeleteInsert(gold, GoldQuery(cfg, silver, w, updatedAt)))
         == Flows(cfg, CountedItems(cfg, Region(Contents(silver), done + {w})))
  {
    hide Incremental.UniqueKeys, Counted, Contents, KeysOf, Flows, GroupKeys, GoldQuery, DeleteInsert, FlowKeyOf,
         HourOf;
    var items := Contents(silver);
    var a, b := CountedItems(cfg, Region(items, done)), CountedItems(cfg, WindowItems(items, w));
    var batch := GoldQuery(cfg, silver, w, updatedAt);
    GoldQueryMeans(cfg, silver, w, updatedAt);
    RegionAdd(items, done, w);
    assert CountedItems(cfg, Region(items, done + {w})) == a + b;
    forall x, y | x in a && y in b && FlowKeyOf(cfg, x) == FlowKeyOf(cfg, y) ensures x in b {
      SameGroupSameHour(cfg, x, y);
      var v :| v in done && InWindow(x.1.blockTimestamp, v);
      assert HoursAgree(v, w);
    }
    FlowsOverride(cfg, a, b);
    DeleteInsertOverrides(gold, batch);
    KeysAreContents(batch);
    FlowKeys(cfg, b);
  }

  /** What a later run adds to silver lies outside the windows that have been built. */
  lemma RegionIsSettled(s: Setup, front: seq<Run>, r: Run, done: set<Window>)
    requires SoundChain(s.chain) && Feasible(s, front + [r]) && done <= Reached(front, SilverBuilt)
    ensures Region(Contents(Play(s, front).silver), done) == Region(Contents(Play(s, front + [r]).silver), done)
  {
    hide StrictlyIncreasing, HonestLogs, OneBlockPerKey, Feasible, Reached, Reflects, RawCovers, SilverCovers,
         Contents, D.UniqueKeys, D.Facts, D.InsertRows, WindowRows, SilverQuery, GoldQuery, DeleteInsert, Transfers,
         Play, InWindow;
    var runs := front + [r];
    assert runs[..|runs| - 1] == front;
    FeasibleMeans(s, runs);
    AnyHistoryCovers(s, front);
    AnyHistoryReflects(s, front);
    AnyHistoryReflects(s, runs);
    ReachedAdd(front, r, SilverBuilt);
    ReachedNested(front);
    forall w | w in done
      ensures WindowItems(Contents(Play(s, front).silver), w) == WindowItems(Contents(Play(s, runs).silver), w)
    {
      BuiltWindowReflects(s, Play(s, front).raw, Play(s, front).silver, Reached(front, SilverBuilt), w);
      BuiltWindowReflects(s, Play(s, runs).raw, Play(s, runs).silver, Reached(runs, SilverBuilt), w);
      RawOfNext(s, front, r);
      LandedIsSettled(s, Play(s, front).raw, Reached(front, RawLanded), w, r.window, r.ingestedAt);
    }
    RegionOfWindows(Contents(Play(s, front).silver), Contents(Play(s, runs).silver), done);
  }

  lemma RawOfNext(s: Setup, front: seq<Run>, r: Run)
    requires StrictlyIncreasing(s.chain)
    ensures Play(s, front + [r]).raw
         == if r.stage == Aborted then Play(s, front).raw
            else D.InsertRows(Play(s, front).raw, WindowRows(s, r.window, r.ingestedAt))
  {
    hide StrictlyIncreasing, D.InsertRows, WindowRows, SilverQuery, GoldQuery, DeleteInsert;
    assert (front + [r])[..|front|] == front;
  }

  lemma RegionOfWindows(a: set<Item>, b: set<Item>, ws: set<Window>)
    requires forall w | w in ws :: WindowItems(a, w) == WindowItems(b, w)
    ensures Region(a, ws) == Region(b, ws)
  {
    forall x | x in Region(a, ws) ensures x in Region(b, ws) {
      var w :| w in ws && InWindow(x.1.blockTimestamp, w);
      assert x in WindowItems(a, w);
    }
    forall x | x in Region(b, ws) ensures x in Region(a, ws) {
      var w :| w in ws && InWindow(x.1.blockTimestamp, w);
      assert x in WindowItems(b, w);
    }
  }

  lemma AgreeSubset(a: set<Window>, b: set<Window>)
    requires AllHoursAgree(b)
    ensures a <= b ==> AllHoursAgree(a)
  {
    hide HoursAgree;
  }

  /** Gold after any history whose finished windows agree about hours, overlapping or not. */
  lemma {:induction false} HoursAgreeRecomputes(s: Setup, runs: seq<Run>)
    requires SoundChain(s.chain) && Feasible(s, runs) && AllHoursAgree(Reached(runs, GoldBuilt))
    ensures GoldRecomputes(s, runs)
  {
    hide StrictlyIncreasing, HonestLogs, OneBlockPerKey, Feasible, AllHoursAgree, Contents, Flows, CountedItems,
         Region, WindowRows, D.InsertRows, SilverQuery, GoldQuery, DeleteInsert, Incremental.UniqueKeys, Reached;
    if runs == [] {
      NothingAggregated(s);
    } else {
      var front, r := runs[..|runs| - 1], runs[|runs| - 1];
      assert runs == front + [r];
      FeasibleMeans(s, runs);
      ReachedAdd(front, r, GoldBuilt);
      ReachedNested(front);
      AgreeSubset(Reached(front, GoldBuilt), Reached(runs, GoldBuilt));
      HoursAgreeRecomputes(s, front);
      RegionIsSettled(s, front, r, Reached(front, GoldBuilt));
      if r.stage == GoldBuilt {
        SilverIsUnique(s, runs);
        GoldStaysRecomputed(s.cfg, Play(s, runs).silver, Play(s, front).gold, Reached(front, GoldBuilt), r.window,
                            r.updatedAt);
      }
    }
  }

  lemma NothingAggregated(s: Setup)
    requires StrictlyIncreasing(s.chain)
    ensures GoldRecomputes(s, [])
  {
    RowsNone<FlowKey, Flow>();
  }

  lemma {:induction false} SilverIsUnique(s: Setup, runs: seq<Run>)
    requires StrictlyIncreasing(s.chain)
    ensures Incremental.UniqueKeys(Play(s, runs).silver)
  {
    hide StrictlyIncreasing, WindowRows, D.InsertRows, SilverQuery, GoldQuery, DeleteInsert, Incremental.UniqueKeys;
    if runs == [] {
      NoRowsUnique<LogKey, Transfer>();
    } else {
      var front, r := runs[..|runs| - 1], runs[|runs| - 1];
      SilverIsUnique(s, front);
      if r.stage.Rank() >= 2 {
        var raw := D.InsertRows(Play(s, front).raw, WindowRows(s, r.window, r.ingestedAt));
        SilverKeysUnique(s.cfg, raw, r.window);
        DeleteInsertUnique(Play(s, front).silver, SilverQuery(s.cfg, raw, r.window));
      }
    }
  }
}
